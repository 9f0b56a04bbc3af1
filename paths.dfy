/** POSIX path manipulation as Python's `os.path` does it, on plain strings. */
module Paths {
  import opened Text

  const Sep: char := '/'

  /** `os.path.join(a, b)` for two components: an absolute `b` replaces `a`,
      and a separator is inserted only when `a` is non-empty and does not end in one. */
  function Join(a: string, b: string): (p: string)
    ensures EndsWith(p, b)
    ensures (b == [] || b[0] != Sep) ==> StartsWith(p, a)
  {
    if b != [] && b[0] == Sep then b
    else if a == [] || a[|a| - 1] == Sep then a + b
    else a + [Sep] + b
  }

  /** `os.path.basename(p)`: everything after the last separator. */
  function Basename(p: string): (r: string)
    ensures EndsWith(p, r) && Sep !in r
    ensures r == p || p[|p| - |r| - 1] == Sep
    decreases |p|
  {
    if p == [] || p[|p| - 1] == Sep then []
    else
      var init := p[..|p| - 1];
      var rest := Basename(init);
      var r := rest + [p[|p| - 1]];
      assert p[|p| - |r|..] == init[|init| - |rest|..] + [p[|p| - 1]];
      assert rest != init ==> p[|p| - |r| - 1] == init[|init| - |rest| - 1];
      r
  }

  /** Behind a separator (or at the start), a separator-free name is its own basename. */
  lemma {:induction false} BasenameAfterSeparator(dir: string, name: string)
    requires dir == [] || dir[|dir| - 1] == Sep
    requires Sep !in name
    ensures Basename(dir + name) == name
    decreases |name|
  {
    if name != [] {
      var init := name[..|name| - 1];
      assert (dir + name)[..|dir + name| - 1] == dir + init;
      BasenameAfterSeparator(dir, init);
      assert init + [name[|name| - 1]] == name;
    } else {
      assert dir + name == dir;
    }
  }

  /** A separator-free name is its own basename. */
  lemma BasenameOfName(name: string)
    requires Sep !in name
    ensures Basename(name) == name
  {
    BasenameAfterSeparator([], name);
    assert [] + name == name;
  }

  /** The basename of a joined path gives back the separator-free component. */
  lemma BasenameOfJoin(dir: string, name: string)
    requires Sep !in name
    ensures Basename(Join(dir, name)) == name
  {
    if dir == [] || dir[|dir| - 1] == Sep {
      BasenameAfterSeparator(dir, name);
    } else {
      BasenameAfterSeparator(dir + [Sep], name);
      assert Join(dir, name) == dir + [Sep] + name;
    }
  }
}
