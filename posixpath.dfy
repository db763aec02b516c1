/** Python's `os.path.join(root, name)` on POSIX, with two arguments. */
module PosixPath {
  import opened PyStr

  predicate IsAbsolute(p: string) {
    |p| > 0 && p[0] == '/'
  }

  /** An absolute `name` discards `root`; otherwise a `/` is inserted between
      the two only when `root` is non-empty and does not already end in `/`.
      Nothing is normalised: `..` and repeated separators are kept as they are.
      So a relative name stays textually under the root (the root is a prefix
      of the result), while an absolute name escapes it entirely. */
  function Join(root: string, name: string): (p: string)
    ensures |name| <= |p| && p[|p| - |name|..] == name
    ensures !IsAbsolute(name) ==>
      root <= p && |p| == |root| + |name| + (if root == "" || EndsWith(root, '/') then 0 else 1)
    ensures !IsAbsolute(name) && root != "" && !EndsWith(root, '/') ==> p[|root|] == '/'
    ensures IsAbsolute(name) ==> p == name
  {
    if IsAbsolute(name) then name
    else if root == "" || EndsWith(root, '/') then root + name
    else root + "/" + name
  }

  /** The path components of the result: those of the root (without its one
      trailing separator) followed by those of the relative name. */
  lemma {:induction false} JoinComponents(root: string, name: string)
    requires root != "" && !IsAbsolute(name)
    ensures Split(Join(root, name), '/') == Split(StripOneTrailing(root, '/'), '/') + Split(name, '/')
  {
    var stem := StripOneTrailing(root, '/');
    if EndsWith(root, '/') {
      assert Join(root, name) == stem + ['/'] + name;
    } else {
      assert Join(root, name) == stem + ['/'] + name;
    }
    SplitAround(stem, name, '/');
  }
}
