/** The guest agent's transfer handlers as an object: slots, counters and files change in place. */
module InitAgent {
  import opened Options
  import opened Paths
  import opened Transfer

  class Init {
    const env: Env
    var files: Files
    var update: Option<Slot>
    var upload: Option<Slot>
    var imageUpload: Option<Slot>
    var loaded: seq<Bytes>
    ghost var journal: seq<Files>  // every state of the file system during a swap

    ghost function View(): Guest
      reads this
    {
      Guest(files, update, upload, imageUpload, loaded)
    }

    constructor (env: Env, files: Files)
      ensures View() == Guest(files, None, None, None, []) && Good(View())
      ensures this.env == env && journal == []
    {
      this.env, this.files, journal := env, files, [];
      update, upload, imageUpload, loaded := None, None, None, [];
    }

    function Current(a: Action): (s: Option<Slot>)
      reads this
      ensures s == SlotOf(View(), a)
    {
      match a
      case Update => update
      case Binary => upload
      case Image => imageUpload
    }

    method SetCurrent(a: Action, s: Option<Slot>)
      modifies this
      ensures View() == PutSlot(old(View()), a, s) && journal == old(journal)
    {
      match a
      case Update => update := s;
      case Binary => upload := s;
      case Image => imageUpload := s;
    }

    // os.Remove; the error is always ignored.
    method RemoveFile(path: string, ok: bool)
      modifies this`files
      ensures files == Remove(old(files), path, ok)
    {
      if ok {
        files := files - {path};
      }
    }

    // cleanupUpdate, cleanupUpload, cleanupImageUpload
    method Cleanup(a: Action, io: Io)
      modifies this
      ensures View() == Cancel(old(View()), a, io) && journal == old(journal)
    {
      if Current(a).Some? {
        RemoveFile(Current(a).value.tmp, io.remove);
        SetCurrent(a, None);
      }
    }

    method Begin(b: Command, io: Io) returns (reply: Reply)
      requires b.Begin?
      modifies this
      ensures Outcome(View(), reply) == HandleBegin(old(View()), b, io) && journal == old(journal)
    {
      if b.action.Binary? && (!ValidComponent(b.app) || !ValidComponent(b.file)) {
        return Error;
      }
      if b.action.Image? && b.image == "" {
        return Error;
      }
      if b.size <= 0 || b.checksum == "" {
        return Error;
      }
      Cleanup(b.action, io);
      if !b.action.Image? && !io.mkdir {
        return Error;
      }
      if !io.open {
        return Error;
      }
      files := files[TmpPath(b) := []];
      SetCurrent(b.action, Some(Slot(TmpPath(b), DestPath(b), b.image, b.size, b.checksum, 0)));
      return Ok(0);
    }

    method Data(a: Action, payload: Option<Bytes>, io: Io) returns (reply: Reply)
      modifies this
      ensures Outcome(View(), reply) == HandleData(old(View()), a, payload, io) && journal == old(journal)
    {
      if Current(a).None? {
        return Error;
      }
      if payload.None? {
        Cleanup(a, io);
        return Error;
      }
      var s, bytes := Current(a).value, payload.value;
      if io.write.Some? {
        var n := if io.write.value <= |bytes| then io.write.value else |bytes|;
        files := files[s.tmp := Content(files, s.tmp) + bytes[..n]];
        Cleanup(a, io);
        return Error;
      }
      files := files[s.tmp := Content(files, s.tmp) + bytes];
      SetCurrent(a, Some(s.(received := s.received + |bytes|)));
      return Ok(s.received + |bytes|);
    }

    // Ends the transfer of `a` with an error and removes its temp file.
    method Abandon(a: Action, tmp: string, io: Io) returns (reply: Reply)
      modifies this
      ensures View() == PutSlot(old(View()).(files := Remove(old(files), tmp, io.remove)), a, None)
      ensures reply == Error && journal == old(journal)
    {
      SetCurrent(a, None);
      RemoveFile(tmp, io.remove);
      return Error;
    }

    // The swap of update-init, one file operation after the other, each noted in the journal.
    method Swap(io: Io) returns (reply: Reply)
      modifies this
      ensures journal == old(journal) + SwapStates(old(files), io)
      ensures View() == old(View()).(files := journal[|journal| - 1], update := None)
      ensures reply == if io.backup && io.install then Ok(0) else Error
    {
      ghost var start, states := files, [files];
      update := None;
      RemoveFile(OLD, io.removeOld);
      states := states + [files];
      if !io.backup {
        RemoveFile(NEW, io.remove);
        states := states + [files];
        assert states == SwapStates(start, io);
        journal := journal + states;
        return Error;
      }
      if CURRENT in files {
        files := Rename(files, CURRENT, OLD);
      }
      states := states + [files];
      if !io.install {
        if OLD in files && io.restore {
          files := Rename(files, OLD, CURRENT);
        }
        states := states + [files];
        assert states == SwapStates(start, io);
        journal := journal + states;
        return Error;
      }
      files := Rename(files, NEW, CURRENT);
      states := states + [files];
      assert states == SwapStates(start, io);
      journal := journal + states;
      return Ok(0);
    }

    method Finish(a: Action, io: Io) returns (reply: Reply)
      modifies this
      ensures Outcome(View(), reply) == HandleFinish(env, old(View()), a, io)
      ensures journal == if a.Update? && old(Current(a)).Some? && io.close && io.read
                            && env.hash(Content(old(files), old(Current(a)).value.tmp)) == old(Current(a)).value.checksum
                         then old(journal) + SwapStates(old(files), io) else old(journal)
    {
      if Current(a).None? {
        return Error;
      }
      var s := Current(a).value;
      if !io.close || !io.read {
        reply := Abandon(a, s.tmp, io);
        return;
      }
      if env.hash(Content(files, s.tmp)) != s.checksum {
        reply := Abandon(a, s.tmp, io);
        return;
      }
      match a {
        case Update =>
          reply := Swap(io);
        case Binary =>
          if io.install {
            files := Rename(files, s.tmp, s.dest);
            SetCurrent(a, None);
            return Ok(0);
          }
          reply := Abandon(a, s.tmp, io);
        case Image =>
          if env.docker && io.openImage && io.load {
            loaded := loaded + [Content(files, s.tmp)];
            RemoveFile(s.tmp, io.remove);
            SetCurrent(a, None);
            return Ok(0);
          }
          reply := Abandon(a, s.tmp, io);
      }
    }

    /** One command: the dispatch on its phase. */
    method Dispatch(ev: Event) returns (reply: Reply)
      requires Good(View())
      modifies this
      ensures Outcome(View(), reply) == Handle(env, old(View()), ev) && Good(View())
    {
      HandleKeepsGood(env, View(), ev);
      match ev.cmd
      case Begin(_, _, _, _, _, _) => reply := Begin(ev.cmd, ev.io);
      case Data(a, payload) => reply := Data(a, payload, ev.io);
      case Finish(a) => reply := Finish(a, ev.io);
      case Unknown(_) => reply := Error;
    }
  }
}
