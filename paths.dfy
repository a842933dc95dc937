/** File names as the source builds them with `os.path.join` and f-strings (POSIX rules). */
module Paths {

  /** `os.path.join(dir, name)`: an absolute `name` discards `dir`; otherwise one '/' separates them. */
  function Join(dir: string, name: string): (p: string)
    ensures |name| > 0 && name[0] == '/' ==> p == name
    ensures (|name| == 0 || name[0] != '/') ==>
              |dir| + |name| <= |p| <= |dir| + |name| + 1 && p[..|dir|] == dir && p[|p| - |name|..] == name
    ensures (|name| == 0 || name[0] != '/') && |p| > |dir| + |name| ==> p[|dir|] == '/'
  {
    if |name| > 0 && name[0] == '/' then name
    else if dir == [] || dir[|dir| - 1] == '/' then dir + name
    else dir + "/" + name
  }

  /** `s.replace(' ', '')`. */
  function RemoveSpaces(s: string): (r: string)
    ensures ' ' !in r
    ensures |r| <= |s|
    ensures forall c :: c in r ==> c in s
    ensures ' ' !in s ==> r == s
  {
    if s == [] then []
    else if s[0] == ' ' then RemoveSpaces(s[1..])
    else [s[0]] + RemoveSpaces(s[1..])
  }
}
