/** The two pathlib operations the loaders use, on plain '/'-separated
    text: `Path(dir).joinpath(name)` and `Path(p).name`. */
module Paths {

  predicate NoSlash(s: string)
  {
    forall i :: 0 <= i < |s| ==> s[i] != '/'
  }

  /** `Path(dir).joinpath(name)`: an absolute name replaces the directory,
      an empty name leaves the directory as it is, and otherwise one '/'
      separates the two. */
  function Join(dir: string, name: string): (r: string)
    ensures |name| <= |r| && r[|r| - |name|..] == name
    ensures name == "" ==> r == dir
    ensures name != "" && name[0] == '/' ==> r == name
    ensures name != "" && name[0] != '/' ==>
              && r[..|r| - |name|] == dir + (if dir == "" || dir[|dir| - 1] == '/' then "" else "/")
              && (|r| > |name| ==> r[|r| - |name| - 1] == '/')
  {
    if name == "" then dir
    else if name[0] == '/' || dir == "" then name
    else if dir[|dir| - 1] == '/' then dir + name
    else dir + "/" + name
  }

  /** `Path(p).name`: the final segment, the text after the last '/'. */
  function Name(p: string): (r: string)
    ensures |r| <= |p| && r == p[|p| - |r|..]
    ensures NoSlash(r)
    ensures |r| < |p| ==> p[|p| - |r| - 1] == '/'
  {
    if p == "" || p[|p| - 1] == '/' then ""
    else Name(p[..|p| - 1]) + [p[|p| - 1]]
  }

  /** A character other than '/' extends the final segment. */
  lemma NameStep(q: string, c: char)
    requires c != '/'
    ensures Name(q + [c]) == Name(q) + [c]
  {
    var p := q + [c];
    assert p[..|p| - 1] == q;
  }

  /** Appending a single segment to a path that is empty or ends in '/'
      makes that segment the final one. */
  lemma {:induction false} NameAfterSlash(pre: string, name: string)
    requires NoSlash(name)
    requires pre == "" || pre[|pre| - 1] == '/'
    ensures Name(pre + name) == name
    decreases |name|
  {
    if name == "" {
      assert pre + name == pre;
    } else {
      var init := name[..|name| - 1];
      var last := name[|name| - 1];
      assert NoSlash(init) by {
        forall i | 0 <= i < |init| ensures init[i] != '/' {
          assert init[i] == name[i];
        }
      }
      assert Name(pre + init) == init by {
        NameAfterSlash(pre, init);
      }
      assert name == init + [last];
      assert pre + name == (pre + init) + [last];
      NameStep(pre + init, last);
    }
  }

  /** The final segment of a joined path is the name that was joined, when
      that name is a single non-empty segment. */
  lemma NameOfJoin(dir: string, name: string)
    requires name != "" && NoSlash(name)
    ensures Name(Join(dir, name)) == name
  {
    if dir == "" {
      NameAfterSlash("", name);
    } else if dir[|dir| - 1] == '/' {
      NameAfterSlash(dir, name);
    } else {
      assert dir + "/" + name == (dir + "/") + name;
      NameAfterSlash(dir + "/", name);
    }
  }
}
