/**
 * The part of os.path.join (POSIX) the core uses to name its files.
 */
module PyPath {

  /** os.path.join(a, b): an absolute b replaces a; otherwise one '/' separates them. */
  function Join(a: string, b: string): (p: string)
    ensures b != [] && b[0] == '/' ==> p == b
    ensures (b == [] || b[0] != '/') ==> |p| >= |b| && p[|p| - |b|..] == b
  {
    if b != [] && b[0] == '/' then b
    else if a == [] || a[|a| - 1] == '/' then a + b
    else a + "/" + b
  }

  /** Joining the same directory with two names gives the same path only for the same name. */
  lemma JoinInjective(a: string, b1: string, b2: string)
    requires b1 != [] && b1[0] != '/' && b2 != [] && b2[0] != '/'
    requires Join(a, b1) == Join(a, b2)
    ensures b1 == b2
  {
    var p1, p2 := Join(a, b1), Join(a, b2);
    var pre := if a == [] || a[|a| - 1] == '/' then a else a + "/";
    assert p1 == pre + b1;
    assert p2 == pre + b2;
    assert b1 == p1[|pre|..];
    assert b2 == p2[|pre|..];
  }
}
