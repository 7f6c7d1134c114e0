/** Where the guest agent puts files, and why the three transfers never meet. */
module Paths {

  // validatePathComponent and validateUploadFileName; the separator is '/'.
  predicate ValidComponent(name: string) {
    && name != "" && name != "." && name != ".."
    && forall i :: 0 <= i < |name| ==> name[i] != '/' && name[i] != '\0'
  }

  predicate SingleComponent(name: string) {
    name != "" && name != "." && name != ".." && '/' !in name && '\0' !in name
  }

  /** A valid name is one component of a path. */
  lemma ComponentsAreValid(name: string)
    ensures ValidComponent(name) <==> SingleComponent(name)
  {
    if ValidComponent(name) {
      assert '/' !in name && '\0' !in name;
    } else if name != "" && name != "." && name != ".." {
      var i :| 0 <= i < |name| && (name[i] == '/' || name[i] == '\0');
    }
  }

  const CURRENT := "/opt/goship/goship-init"
  const NEW := "/opt/goship/goship-init.new"
  const OLD := "/opt/goship/goship-init.old"
  const IMAGE_TMP := "/tmp/goship-image-upload.tar.gz"
  const BINARIES := "/opt/goship/binaries/"

  // filepath.Join of clean directories and single components only concatenates.
  function BinaryDest(app: string, file: string): string {
    BINARIES + app + "/" + file
  }

  function BinaryTmp(app: string, file: string): string {
    BinaryDest(app, file + ".new")
  }

  datatype Action = Update | Binary | Image

  // The part of the file system an action may touch.
  predicate Owned(a: Action, path: string) {
    match a
    case Update => path == CURRENT || path == NEW || path == OLD
    case Binary => |path| >= |BINARIES| && path[..|BINARIES|] == BINARIES
    case Image => path == IMAGE_TMP
  }

  /** The three actions own disjoint sets of paths. */
  lemma OwnersDisjoint(a: Action, b: Action, path: string)
    requires a != b && Owned(a, path)
    ensures !Owned(b, path)
  {
    assert CURRENT[12] == 'g' && NEW[12] == 'g' && OLD[12] == 'g' && BINARIES[12] == 'b';
    assert IMAGE_TMP[1] == 't' && CURRENT[1] == 'o' && NEW[1] == 'o' && OLD[1] == 'o' && BINARIES[1] == 'o';
    if Owned(Binary, path) {
      assert path[12] == path[..|BINARIES|][12] && path[1] == path[..|BINARIES|][1];
    }
  }

  lemma BinaryPathsOwned(app: string, file: string)
    ensures Owned(Binary, BinaryDest(app, file)) && Owned(Binary, BinaryTmp(app, file))
  {
  }

  lemma SplitAtSlash(x: string, y: string, x': string, y': string)
    requires forall i :: 0 <= i < |x| ==> x[i] != '/'
    requires forall i :: 0 <= i < |x'| ==> x'[i] != '/'
    requires x + "/" + y == x' + "/" + y'
    ensures x == x' && y == y'
  {
    var s, s' := x + "/" + y, x' + "/" + y';
    assert s[|x|] == '/' && s'[|x'|] == '/';
    assert s[..|x|] == x && s'[..|x'|] == x' && s[|x| + 1..] == y && s'[|x'| + 1..] == y';
  }

  /** A destination determines the app and the file. */
  lemma DestInjective(app: string, file: string, app': string, file': string)
    requires ValidComponent(app) && ValidComponent(app')
    requires BinaryDest(app, file) == BinaryDest(app', file')
    ensures app == app' && file == file'
  {
    assert BinaryDest(app, file)[|BINARIES|..] == app + "/" + file;
    assert BinaryDest(app', file')[|BINARIES|..] == app' + "/" + file';
    SplitAtSlash(app, file, app', file');
  }

  /** The temp file of one upload is the destination of another exactly when the other installs a
      file called like the first one with ".new" appended, for the same app. */
  lemma TmpMeetsDest(app: string, file: string, app': string, file': string)
    requires ValidComponent(app) && ValidComponent(app')
    ensures BinaryTmp(app, file) == BinaryDest(app', file') <==> app == app' && file' == file + ".new"
  {
    if BinaryTmp(app, file) == BinaryDest(app', file') {
      DestInjective(app, file + ".new", app', file');
    }
  }

  lemma TmpIsNotOwnDest(app: string, file: string)
    ensures BinaryTmp(app, file) != BinaryDest(app, file)
  {
    assert |BinaryTmp(app, file)| != |BinaryDest(app, file)|;
  }
}
