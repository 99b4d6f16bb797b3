/** Paths as the decomposed sequence of components that `Path::components` yields. */
module Paths {
  import opened Wrappers
  import opened Bytes

  /** One path component. `Normal` holds the name's UTF-8 bytes; `Prefix` is a
      Windows drive or UNC prefix in its parsed form (`parsed`), the form that
      decides equality of prefixes: a drive letter is upper-cased, so `c:` and
      `C:` are the same prefix, while two different drives are different ones. */
  datatype Component = RootDir | Normal(name: seq<byte>) | CurDir | ParentDir | Prefix(parsed: seq<byte>)

  /** The only failure of the formatter once both directories are known. */
  datatype Error = UnsupportedPrefix

  /** No component of the path is a Windows prefix. */
  predicate Supported(path: seq<Component>) {
    forall i :: 0 <= i < |path| ==> !path[i].Prefix?
  }

  /** The display text of a component: the root is empty, a name is itself,
      `.` and `..` stay as they are. */
  function Text(c: Component): seq<byte>
    requires !c.Prefix?
  {
    match c
    case RootDir => []
    case Normal(name) => name
    case CurDir => [Dot]
    case ParentDir => [Dot, Dot]
  }

  /** `path` relative to `base`, when `base` is a whole-component prefix of it
      (`Path::strip_prefix`): the components after `base`; otherwise `None`. */
  function StripPrefix(path: seq<Component>, base: seq<Component>): (r: Option<seq<Component>>)
    ensures r.Some? <==> base <= path
    ensures r.Some? ==> path == base + r.value
  {
    if base == [] then Some(path)
    else if path == [] || path[0] != base[0] then None
    else StripPrefix(path[1..], base[1..])
  }
}
