/** File paths as `node:path` builds and splits them (without normalisation). */
module Paths {
  import opened Strings

  /** `path.join(dir, name)`. */
  function Join(dir: string, name: string): (p: string)
    ensures dir != "" ==> p == dir + "/" + name
  {
    if dir == "" then name else dir + "/" + name
  }

  /** `s.lastIndexOf(c)`: the last position of `c`, or -1. */
  function LastIndexOf(s: string, c: char): (r: int)
    ensures -1 <= r < |s|
    ensures r >= 0 ==> s[r] == c && forall j :: r < j < |s| ==> s[j] != c
    ensures r == -1 ==> forall j :: 0 <= j < |s| ==> s[j] != c
  {
    if s == [] then -1
    else if s[|s| - 1] == c then |s| - 1
    else LastIndexOf(s[..|s| - 1], c)
  }

  /** `path.basename(p)`: what follows the last '/'. */
  function BaseName(p: string): (b: string)
    ensures '/' !in b
  {
    var k := LastIndexOf(p, '/');
    var b := p[k + 1..];
    assert forall j :: 0 <= j < |b| ==> b[j] == p[k + 1 + j];
    b
  }

  /** `path.parse(p).name`: the base name without its extension (a leading dot
      does not start an extension). */
  function ParseName(p: string): (n: string)
    ensures '/' !in n
  {
    var b := BaseName(p);
    var dot := LastIndexOf(b, '.');
    if dot > 0 then b[..dot] else b
  }

  /** `p` names an entry directly inside directory `dir`. */
  predicate InDirectory(p: string, dir: string) {
    StartsWith(p, dir + "/") && '/' !in p[|dir| + 1..]
  }

  /** Joining a directory with a plain name gives an entry of that directory,
      whose base name is that name. */
  lemma JoinInDirectory(dir: string, name: string)
    requires dir != "" && '/' !in name
    ensures InDirectory(Join(dir, name), dir)
    ensures BaseName(Join(dir, name)) == name
  {
    var p := Join(dir, name);
    assert p[..|dir| + 1] == dir + "/";
    assert p[|dir| + 1..] == name;
    var k := LastIndexOf(p, '/');
    assert p[|dir|] == '/';
    assert k == |dir| by {
      forall j | |dir| < j < |p| ensures p[j] != '/' {
        assert p[j] == name[j - |dir| - 1];
      }
    }
  }

  /** A plain name is the base name of any path joined from it. */
  lemma BaseNameOfJoin(dir: string, name: string)
    requires '/' !in name
    ensures BaseName(Join(dir, name)) == name
  {
    if dir != "" {
      JoinInDirectory(dir, name);
    } else {
      assert LastIndexOf(name, '/') == -1;
    }
  }

  /** Different plain names give different paths, whatever the directories. */
  lemma JoinDistinctNames(dir1: string, name1: string, dir2: string, name2: string)
    requires '/' !in name1 && '/' !in name2 && name1 != name2
    ensures Join(dir1, name1) != Join(dir2, name2)
  {
    BaseNameOfJoin(dir1, name1);
    BaseNameOfJoin(dir2, name2);
  }

  /** Different names in the same directory give different paths. */
  lemma JoinSameDirectory(dir: string, a: string, b: string)
    requires a != b
    ensures Join(dir, a) != Join(dir, b)
  {
    if dir != "" {
      assert Join(dir, a)[|dir| + 1..] == a;
      assert Join(dir, b)[|dir| + 1..] == b;
    }
  }
}
