/** What the formatter promises, stated on its specification functions. */
module Properties {
  import opened Wrappers
  import opened Bytes
  import opened Paths
  import opened PromptDir

  /** The piece of component `k` of `path`, which has `|path|` components. */
  function PieceOf(path: seq<Component>, k: nat, limit: nat, placeholder: seq<byte>): seq<byte>
    requires k < |path| && !path[k].Prefix?
  {
    if k == |path| - 1 then Text(path[k]) else Shorten(Text(path[k]), limit, placeholder)
  }

  /** Piece `k` comes from component `k`: shortened unless it is the leaf. */
  lemma {:induction false} ShortenedAt(path: seq<Component>, limit: nat, placeholder: seq<byte>, k: nat)
    requires Supported(path) && k < |path|
    ensures Shortened(path, limit, placeholder).value[k] == PieceOf(path, k, limit, placeholder)
  {
    if k > 0 {
      assert Supported(path[1..]) by {
        forall i | 0 <= i < |path[1..]| ensures !path[1..][i].Prefix? {
          assert path[1..][i] == path[i + 1];
        }
      }
      ShortenedAt(path[1..], limit, placeholder, k - 1);
      assert path[1..][k - 1] == path[k];
    }
  }

  /** Where the pieces of the relative path start in the layout. */
  function Offset(pwd: seq<Component>, home: seq<Component>): nat {
    if InHome(pwd, home) then 1 else 0
  }

  /** The layout fails exactly when the displayed path holds a Windows prefix,
      and then with `UnsupportedPrefix`. */
  lemma UnsupportedIffPrefix(pwd: seq<Component>, home: seq<Component>, args: Args)
    ensures Layout(pwd, home, args).Err? <==> exists k :: 0 <= k < |Relative(pwd, home)| && Relative(pwd, home)[k].Prefix?
    ensures Prompt(pwd, home, args).Err? <==> Layout(pwd, home, args).Err?
    ensures Prompt(pwd, home, args).Err? ==> Prompt(pwd, home, args).error == UnsupportedPrefix
  {
  }

  /** One piece per displayed component, plus the home icon under home; outside
      home a single component collapses to the single piece `/`. */
  lemma OnePiecePerComponent(pwd: seq<Component>, home: seq<Component>, args: Args)
    requires Supported(Relative(pwd, home))
    ensures Layout(pwd, home, args).Ok?
    ensures InHome(pwd, home) ==> |Layout(pwd, home, args).value| == 1 + |Relative(pwd, home)|
    ensures !InHome(pwd, home) && |pwd| != 1 ==> |Layout(pwd, home, args).value| == |pwd|
    ensures !InHome(pwd, home) && |pwd| == 1 ==> Layout(pwd, home, args).value == [[Slash]]
  {
  }

  /** The leaf is shown as it is, whatever its length, and ends the printed line
      (except for the filesystem root, which prints as `/`). */
  lemma LeafKeptVerbatim(pwd: seq<Component>, home: seq<Component>, args: Args)
    requires Supported(Relative(pwd, home)) && |Relative(pwd, home)| >= 1
    requires InHome(pwd, home) || |pwd| > 1
    ensures var ps := Layout(pwd, home, args).value;
      var q := Relative(pwd, home);
      |ps| >= 1 && ps[|ps| - 1] == Text(q[|q| - 1])
    ensures var out := Prompt(pwd, home, args).value;
      var leaf := Text(Relative(pwd, home)[|Relative(pwd, home)| - 1]);
      |leaf| <= |out| && out[|out| - |leaf|..] == leaf
  {
    var q := Relative(pwd, home);
    var sh := Shortened(q, Limit(args), Placeholder(args)).value;
    ShortenedAt(q, Limit(args), Placeholder(args), |q| - 1);
    assert sh[|sh| - 1] == Text(q[|q| - 1]);
    var ps := if InHome(pwd, home) then [HomeIcon(args)] + sh else sh;
    assert Layout(pwd, home, args) == Ok(ps);
    assert ps[|ps| - 1] == sh[|sh| - 1];
    JoinEndsWithLast(ps);
  }

  /** An intermediate component longer than the limit is replaced whole by the
      placeholder; one within the limit is kept as it is. */
  lemma NonLeafElidedWhole(pwd: seq<Component>, home: seq<Component>, args: Args, k: nat)
    requires Supported(Relative(pwd, home)) && k < |Relative(pwd, home)| - 1
    ensures var ps := Layout(pwd, home, args).value;
      var o := Offset(pwd, home);
      var t := Text(Relative(pwd, home)[k]);
      o + k < |ps| &&
      (|t| > Limit(args) ==> ps[o + k] == Placeholder(args)) &&
      (|t| <= Limit(args) ==> ps[o + k] == t)
  {
    ShortenedAt(Relative(pwd, home), Limit(args), Placeholder(args), k);
  }

  /** The root renders as the empty piece and is never elided. */
  lemma RootNeverElided(pwd: seq<Component>, home: seq<Component>, args: Args, k: nat)
    requires Supported(Relative(pwd, home)) && k < |Relative(pwd, home)|
    requires Relative(pwd, home)[k] == RootDir
    requires InHome(pwd, home) || |pwd| > 1
    ensures var ps := Layout(pwd, home, args).value;
      Offset(pwd, home) + k < |ps| && ps[Offset(pwd, home) + k] == []
  {
    ShortenedAt(Relative(pwd, home), Limit(args), Placeholder(args), k);
  }

  /** Under home the home icon is the first piece and the printed line starts with it. */
  lemma HomeIconLeads(pwd: seq<Component>, home: seq<Component>, args: Args)
    requires home <= pwd && Supported(Relative(pwd, home))
    ensures Layout(pwd, home, args).Ok? && Layout(pwd, home, args).value[0] == HomeIcon(args)
    ensures HomeIcon(args) <= Prompt(pwd, home, args).value
  {
  }

  /** At home the printed line is exactly the home icon. */
  lemma AtHomeIsIcon(home: seq<Component>, args: Args)
    ensures Layout(home, home, args) == Ok([HomeIcon(args)])
    ensures Prompt(home, home, args) == Ok(HomeIcon(args))
  {
    var rest := StripPrefix(home, home).value;
    assert |home| == |home| + |rest|;
    assert rest == [];
    assert [HomeIcon(args)] + [] == [HomeIcon(args)];
  }

  /** Outside home a one-component path, the filesystem root, prints as `/`. */
  lemma FilesystemRootIsSlash(pwd: seq<Component>, home: seq<Component>, args: Args)
    requires !(home <= pwd) && |pwd| == 1 && !pwd[0].Prefix?
    ensures Layout(pwd, home, args) == Ok([[Slash]])
    ensures Prompt(pwd, home, args) == Ok([Slash])
  {
  }

  /** Outside home an absolute path of several components prints from the root:
      the first piece is empty and the line starts with `/`, so it starts with the
      home icon only if that icon is empty or itself starts with `/`. */
  lemma OutsideHomeStartsAtRoot(pwd: seq<Component>, home: seq<Component>, args: Args)
    requires !(home <= pwd) && Supported(pwd) && |pwd| > 1 && pwd[0] == RootDir
    ensures Layout(pwd, home, args).Ok? && Layout(pwd, home, args).value[0] == []
    ensures var out := Prompt(pwd, home, args).value;
      |out| >= 1 && out[0] == Slash &&
      (HomeIcon(args) <= out ==> HomeIcon(args) == [] || HomeIcon(args)[0] == Slash)
  {
  }

  /** A home on one drive (by parsed prefix) does not contain a directory on another: stripping
      fails, the whole `pwd` is displayed, and its drive prefix is rejected. */
  lemma OtherDriveRejected(pwd: seq<Component>, home: seq<Component>, args: Args)
    requires |pwd| >= 1 && |home| >= 1 && pwd[0].Prefix? && home[0].Prefix?
    requires pwd[0].parsed != home[0].parsed
    ensures !InHome(pwd, home)
    ensures Prompt(pwd, home, args) == Err(UnsupportedPrefix)
  {
    assert home[0] != pwd[0];
    assert !(home <= pwd);
  }

  /** When no piece holds a `/`, cutting the printed line at each `/` gives back
      the pieces in order. */
  lemma PromptSplitsIntoLayout(pwd: seq<Component>, home: seq<Component>, args: Args)
    requires Layout(pwd, home, args).Ok? && |Layout(pwd, home, args).value| >= 1
    requires forall i :: 0 <= i < |Layout(pwd, home, args).value| ==> Slash !in Layout(pwd, home, args).value[i]
    ensures Split(Prompt(pwd, home, args).value) == Layout(pwd, home, args).value
  {
    SplitJoin(Layout(pwd, home, args).value);
  }
}
