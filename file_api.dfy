/** Where the CMake File API query and reply live under a build folder, and
    which reply index file is the current one (`file_api*`, `get_index_file`). */
module FileApi {
  import opened Wrappers
  import opened Strings

  /** The client name this plugin registers its query under. */
  const ClientStr: string := "client-sublimetext"

  /** `os.path.join(a, b)` with POSIX separators: an absolute `b` replaces `a`,
      and a separator is inserted unless `a` is empty or already ends with one. */
  function Join(a: string, b: string): string {
    if |b| > 0 && b[0] == '/' then b
    else if a == [] || a[|a| - 1] == '/' then a + b
    else a + "/" + b
  }

  function FileApiDir(buildFolder: string): string {
    Join(Join(Join(buildFolder, ".cmake"), "api"), "v1")
  }

  function FileApiQuery(buildFolder: string): string {
    Join(Join(FileApiDir(buildFolder), "query"), ClientStr)
  }

  function FileApiReply(buildFolder: string): string {
    Join(FileApiDir(buildFolder), "reply")
  }

  /** The build folder with a trailing separator, as `join` sees it. */
  function AsDir(buildFolder: string): string {
    if buildFolder == [] || buildFolder[|buildFolder| - 1] == '/' then buildFolder else buildFolder + "/"
  }

  /** Joining a relative name onto a directory that does not end with a separator. */
  lemma JoinBelow(a: string, b: string)
    requires a != [] && a[|a| - 1] != '/'
    requires b != [] && b[0] != '/'
    ensures Join(a, b) == a + "/" + b
  {
  }

  lemma JoinDotCmake(buildFolder: string)
    ensures Join(buildFolder, ".cmake") == AsDir(buildFolder) + ".cmake"
  {
    assert ".cmake"[0] == '.';
  }

  lemma DirLiteral(base: string)
    ensures base + ".cmake" + "/" + "api" + "/" + "v1" == base + ".cmake/api/v1"
  {
  }

  lemma ReplyLiteral(d: string)
    ensures d + "/" + "reply" == d + "/reply"
  {
  }

  lemma QueryLiteral(d: string)
    ensures d + "/" + "query" + "/" + ClientStr == d + "/query/" + ClientStr
  {
  }

  /** The File API tree is `<build>/.cmake/api/v1`, with the query directory
      `query/client-sublimetext` and the reply directory `reply` beside each other. */
  lemma FileApiLayout(buildFolder: string)
    ensures FileApiDir(buildFolder) == AsDir(buildFolder) + ".cmake/api/v1"
    ensures FileApiQuery(buildFolder) == FileApiDir(buildFolder) + "/query/" + ClientStr
    ensures FileApiReply(buildFolder) == FileApiDir(buildFolder) + "/reply"
  {
    var c := AsDir(buildFolder) + ".cmake";
    JoinDotCmake(buildFolder);
    JoinBelow(c, "api");
    var a := c + "/" + "api";
    JoinBelow(a, "v1");
    DirLiteral(AsDir(buildFolder));
    var d := FileApiDir(buildFolder);
    JoinBelow(d, "query");
    JoinBelow(d + "/" + "query", ClientStr);
    QueryLiteral(d);
    JoinBelow(d, "reply");
    ReplyLiteral(d);
  }

  /** The file names `index-*.json` matches: the prefix and suffix, with any text between. */
  predicate IsIndexFileName(name: string) {
    |name| >= |"index-"| + |".json"| && StartsWith(name, "index-") && EndsWith(name, ".json")
  }

  /** The listed names `iglob` returns for the pattern, in listing order. */
  function IndexFileNames(listing: seq<string>): (r: seq<string>)
    ensures forall n :: n in r <==> n in listing && IsIndexFileName(n)
  {
    if listing == [] then []
    else (if IsIndexFileName(listing[0]) then [listing[0]] else []) + IndexFileNames(listing[1..])
  }

  /** `sorted(xs, reverse=True)[0]`: the greatest string in Python's order. */
  function Greatest(xs: seq<string>): (g: string)
    requires |xs| > 0
    ensures g in xs
    ensures forall x :: x in xs ==> LexLe(x, g)
  {
    if |xs| == 1 then
      LexLeReflexive(xs[0]);
      xs[0]
    else
      var g' := Greatest(xs[1..]);
      LexLeTotal(xs[0], g');
      if LexLe(xs[0], g') then g'
      else
        GreatestStep(xs, g');
        xs[0]
  }

  lemma GreatestStep(xs: seq<string>, g: string)
    requires |xs| > 1
    requires forall x :: x in xs[1..] ==> LexLe(x, g)
    requires LexLe(g, xs[0])
    ensures forall x :: x in xs ==> LexLe(x, xs[0])
  {
    forall x | x in xs
      ensures LexLe(x, xs[0])
    {
      if x == xs[0] {
        LexLeReflexive(x);
      } else {
        LexLeTransitive(x, g, xs[0]);
      }
    }
  }

  /** `get_index_file`: among the reply directory's entries matching `index-*.json`,
      the path that sorts last; an `IndexError` when there is none. */
  function GetIndexFile(buildFolder: string, listing: seq<string>): (r: Result<string, PyError>)
    ensures r.Err? <==> (forall n :: n in listing ==> !IsIndexFileName(n))
    ensures r.Err? ==> r.error == IndexError
    ensures r.Ok? ==> exists n :: n in listing && IsIndexFileName(n) && r.value == Join(FileApiReply(buildFolder), n)
    ensures r.Ok? ==> forall n :: n in listing && IsIndexFileName(n) ==> LexLe(Join(FileApiReply(buildFolder), n), r.value)
  {
    var names := IndexFileNames(listing);
    var reply := FileApiReply(buildFolder);
    var paths := seq(|names|, i requires 0 <= i < |names| => Join(reply, names[i]));
    if |paths| == 0 then
      Err(IndexError)
    else
      assert forall n :: n in listing && IsIndexFileName(n) ==> Join(reply, n) in paths by {
        forall n | n in listing && IsIndexFileName(n) ensures Join(reply, n) in paths {
          var i :| 0 <= i < |names| && names[i] == n;
          assert paths[i] == Join(reply, n);
        }
      }
      var g := Greatest(paths);
      var i :| 0 <= i < |paths| && paths[i] == g;
      assert names[i] in listing && IsIndexFileName(names[i]);
      Ok(g)
  }

  /** A reply-directory entry is joined to the reply directory with one separator. */
  lemma JoinReplyEntry(buildFolder: string, n: string)
    requires IsIndexFileName(n)
    ensures Join(FileApiReply(buildFolder), n) == (FileApiReply(buildFolder) + "/") + n
  {
    FileApiLayout(buildFolder);
    var reply := FileApiReply(buildFolder);
    assert reply[|reply| - 1] == 'y';
    assert n[..6] == "index-";
    assert n[0] == 'i';
  }

  /** The index chosen is the one whose own name is greatest: the reply directory
      prefix shared by every candidate does not affect the order. */
  lemma IndexFileHasGreatestName(buildFolder: string, listing: seq<string>, n: string, m: string)
    requires n in listing && IsIndexFileName(n)
    requires GetIndexFile(buildFolder, listing) == Ok(Join(FileApiReply(buildFolder), m))
    requires IsIndexFileName(m)
    ensures LexLe(n, m)
  {
    var reply := FileApiReply(buildFolder);
    assert LexLe(Join(reply, n), Join(reply, m));
    JoinReplyEntry(buildFolder, n);
    JoinReplyEntry(buildFolder, m);
    LexLeCommonPrefix(reply + "/", n, m);
  }

  /** The selection depends only on which names are present, not on the order
      (or repetition) in which the directory lists them. */
  lemma IndexFileOrderIndependent(buildFolder: string, listing1: seq<string>, listing2: seq<string>)
    requires forall n :: n in listing1 <==> n in listing2
    ensures GetIndexFile(buildFolder, listing1) == GetIndexFile(buildFolder, listing2)
  {
    var r1 := GetIndexFile(buildFolder, listing1);
    var r2 := GetIndexFile(buildFolder, listing2);
    if r1.Ok? && r2.Ok? {
      var reply := FileApiReply(buildFolder);
      var n1 :| n1 in listing1 && IsIndexFileName(n1) && r1.value == Join(reply, n1);
      var n2 :| n2 in listing2 && IsIndexFileName(n2) && r2.value == Join(reply, n2);
      assert LexLe(r1.value, r2.value) && LexLe(r2.value, r1.value);
      LexLeAntisymmetric(r1.value, r2.value);
    }
  }
}
