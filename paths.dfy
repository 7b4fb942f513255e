/** The two `pathlib` accessors the core reads from a POSIX path string:
    `Path.name` (the final component) and `Path.suffix` (its extension). */
module Paths {

  /** The index just past the last '/' in `p`, or 0 when there is none. */
  function NameStart(p: string): (k: nat)
    ensures k <= |p|
    ensures k > 0 ==> p[k - 1] == '/'
    ensures forall i :: k <= i < |p| ==> p[i] != '/'
  {
    if p == [] then 0
    else if p[|p| - 1] == '/' then |p|
    else NameStart(p[..|p| - 1])
  }

  /** `Path(p).name`, for a path that does not end in `/`: the paths it is
      applied to name files. `pathlib` drops a trailing separator before taking
      the name, whereas here a trailing `/` gives the empty name. */
  function PathName(p: string): (r: string)
    ensures forall i :: 0 <= i < |r| ==> r[i] != '/'
    ensures |r| <= |p| && r == p[|p| - |r|..]
    ensures |r| < |p| ==> p[|p| - |r| - 1] == '/'
  {
    p[NameStart(p)..]
  }

  /** `name.rfind('.')`, absent when `name` has no dot. */
  function LastDot(name: string): (k: int)
    ensures -1 <= k < |name|
    ensures k >= 0 ==> name[k] == '.'
    ensures forall i :: k < i < |name| ==> name[i] != '.'
  {
    if name == [] then -1
    else if name[|name| - 1] == '.' then |name| - 1
    else LastDot(name[..|name| - 1])
  }

  /** `PurePath.suffix`: from the last dot on, provided the dot is neither the
      first nor the last character of the name; otherwise empty. */
  function Suffix(name: string): (r: string)
    ensures r != [] ==> |r| >= 2 && |r| < |name| && r == name[|name| - |r|..]
    ensures r != [] ==> r[0] == '.' && forall i :: 0 < i < |r| ==> r[i] != '.'
  {
    var i := LastDot(name);
    if 0 < i < |name| - 1 then name[i..] else ""
  }

  /** A suffix is found exactly when some dot other than a leading one is
      followed by at least one character. */
  lemma SuffixIff(name: string)
    ensures Suffix(name) != [] <==>
              exists i :: 0 < i < |name| - 1 && name[i] == '.' &&
                          forall j :: i < j < |name| ==> name[j] != '.'
  {
    var k := LastDot(name);
    if exists i :: 0 < i < |name| - 1 && name[i] == '.' &&
                   forall j :: i < j < |name| ==> name[j] != '.' {
      var i :| 0 < i < |name| - 1 && name[i] == '.' &&
               forall j :: i < j < |name| ==> name[j] != '.';
      assert k >= i;
      assert k == i;
    }
  }
}
