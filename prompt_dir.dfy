/** The prompt-path formatter: the current directory, written relative to home
    when it lies under home, with long intermediate names elided. */
module PromptDir {
  import opened Wrappers
  import opened Bytes
  import opened Paths

  /** The three command-line options; each is optional. */
  datatype Args = Args(length: Option<nat>, placeholder: Option<seq<byte>>, homeIcon: Option<seq<byte>>)

  const DefaultLength: nat := 6
  const DefaultPlaceholder: seq<byte> := [Dot, Dot, Dot]
  const DefaultHomeIcon: seq<byte> := [Tilde]

  /** Longest intermediate name (in bytes) that is kept. */
  function Limit(args: Args): nat { args.length.GetOr(DefaultLength) }

  /** Text that stands for an elided name. */
  function Placeholder(args: Args): seq<byte> { args.placeholder.GetOr(DefaultPlaceholder) }

  /** Text that stands for the home directory. */
  function HomeIcon(args: Args): seq<byte> { args.homeIcon.GetOr(DefaultHomeIcon) }

  /** Whether `pwd` is `home` or lies under it. */
  predicate InHome(pwd: seq<Component>, home: seq<Component>) {
    StripPrefix(pwd, home).Some?
  }

  /** The path that gets displayed: `pwd` relative to `home` if possible, else `pwd` itself. */
  function Relative(pwd: seq<Component>, home: seq<Component>): seq<Component> {
    match StripPrefix(pwd, home)
    case Some(rest) => rest
    case None => pwd
  }

  /** An intermediate name: replaced whole by `placeholder` when it is longer than `limit`. */
  function Shorten(s: seq<byte>, limit: nat, placeholder: seq<byte>): seq<byte> {
    if |s| > limit then placeholder else s
  }

  /** The rendered pieces of `path`, one per component: every component but the
      last shortened, the last as it is; an error for any Windows prefix. */
  function Shortened(path: seq<Component>, limit: nat, placeholder: seq<byte>): (r: Result<seq<seq<byte>>, Error>)
    ensures r.Ok? <==> Supported(path)
    ensures r.Ok? ==> |r.value| == |path|
    ensures r.Err? ==> r.error == UnsupportedPrefix
  {
    if path == [] then Ok([])
    else if path[0].Prefix? then Err(UnsupportedPrefix)
    else if |path| == 1 then Ok([Text(path[0])])
    else
      match Shortened(path[1..], limit, placeholder)
      case Err(e) => Err(e)
      case Ok(rest) => Ok([Shorten(Text(path[0]), limit, placeholder)] + rest)
  }

  /** The pieces that get joined: the shortened relative path, led by the home
      icon when under home, or the single piece `/` when outside home only one
      piece is left. */
  function Layout(pwd: seq<Component>, home: seq<Component>, args: Args): Result<seq<seq<byte>>, Error> {
    match Shortened(Relative(pwd, home), Limit(args), Placeholder(args))
    case Err(e) => Err(e)
    case Ok(ps) =>
      if InHome(pwd, home) then Ok([HomeIcon(args)] + ps)
      else if |ps| == 1 then Ok([[Slash]])
      else Ok(ps)
  }

  /** The line the program prints. */
  function Prompt(pwd: seq<Component>, home: seq<Component>, args: Args): Result<seq<byte>, Error> {
    match Layout(pwd, home, args)
    case Err(e) => Err(e)
    case Ok(ps) => Ok(Join(ps))
  }

  /** `cs` put in front of the pieces of a result that succeeded. */
  function Prepended(cs: seq<seq<byte>>, r: Result<seq<seq<byte>>, Error>): Result<seq<seq<byte>>, Error> {
    match r
    case Ok(ps) => Ok(cs + ps)
    case Err(e) => Err(e)
  }

  lemma PrependedAppend(cs: seq<seq<byte>>, x: seq<byte>, r: Result<seq<seq<byte>>, Error>)
    ensures Prepended(cs, Prepended([x], r)) == Prepended(cs + [x], r)
  {
    if r.Ok? {
      assert cs + ([x] + r.value) == (cs + [x]) + r.value;
    }
  }

  /** The formatter: strips home, renders and shortens component by component,
      then inserts the home icon or collapses the root, and joins with `/`. */
  method FormatPath(pwd: seq<Component>, home: seq<Component>, args: Args) returns (r: Result<seq<byte>, Error>)
    ensures r == Prompt(pwd, home, args)
  {
    var stripped := StripPrefix(pwd, home);
    var inHome := stripped.Some?;
    var path := if inHome then stripped.value else pwd;
    ghost var spec := Shortened(path, Limit(args), Placeholder(args));

    var components: seq<seq<byte>> := [];
    var num := |path|;
    assert path[0..] == path;
    assert spec.Ok? ==> [] + spec.value == spec.value;
    for i := 0 to num
      invariant |components| == i
      invariant spec == Prepended(components, Shortened(path[i..], Limit(args), Placeholder(args)))
    {
      assert path[i..][0] == path[i] && path[i..][1..] == path[i + 1..];
      var s: seq<byte>;
      match path[i] {
        case RootDir => s := [];
        case Normal(name) => s := name;
        case CurDir => s := [Dot];
        case ParentDir => s := [Dot, Dot];
        case Prefix(_) => return Err(UnsupportedPrefix);
      }
      assert s == Text(path[i]);
      // the leaf is pushed as it is and ends the walk
      if i == num - 1 {
        components := components + [s];
        assert spec == Ok(components);
        break;
      }
      if |s| > args.length.GetOr(DefaultLength) {
        s := args.placeholder.GetOr(DefaultPlaceholder);
      }
      PrependedAppend(components, s, Shortened(path[i + 1..], Limit(args), Placeholder(args)));
      components := components + [s];
    }
    assert path[num..] == [] && components + [] == components;
    assert spec == Ok(components);

    if inHome {
      components := [args.homeIcon.GetOr(DefaultHomeIcon)] + components;
    } else if |components| == 1 {
      components := [[Slash]];
    }
    r := Ok(Join(components));
  }
}
