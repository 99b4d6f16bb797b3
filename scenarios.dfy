/** Worked examples of the formatter on concrete directories. */
module Scenarios {
  import opened Wrappers
  import opened Bytes
  import opened Paths
  import opened PromptDir
  import opened Properties

  const Defaults := Args(None, None, None)

  function N(s: string): Component
    requires IsAscii(s)
  {
    Normal(Ascii(s))
  }

  const AliceHome := [RootDir, N("home"), N("alice")]

  /** What `pwd` under `home` is relative to it. */
  lemma RelativeUnder(home: seq<Component>, rest: seq<Component>)
    ensures InHome(home + rest, home) && Relative(home + rest, home) == rest
  {
    var r := StripPrefix(home + rest, home);
    assert home <= home + rest;
    assert home + rest == home + r.value;
    assert r.value == (home + rest)[|home|..] == rest;
  }

  /** Omitting every option gives length 6, placeholder `...` and home icon `~`. */
  lemma DefaultOptions()
    ensures Limit(Defaults) == 6
    ensures Placeholder(Defaults) == Ascii("...")
    ensures HomeIcon(Defaults) == Ascii("~")
  {
  }

  /** Two components under home print as the icon, the shortened first and the verbatim second. */
  lemma TwoUnderHome(home: seq<Component>, a: Component, b: Component, args: Args)
    requires !a.Prefix? && !b.Prefix?
    ensures Prompt(home + [a, b], home, args)
      == Ok(HomeIcon(args) + [Slash] + Shorten(Text(a), Limit(args), Placeholder(args)) + [Slash] + Text(b))
  {
    RelativeUnder(home, [a, b]);
    assert [a, b][1..] == [b];
    var short := Shorten(Text(a), Limit(args), Placeholder(args));
    var ps := [HomeIcon(args), short, Text(b)];
    assert Shortened([b], Limit(args), Placeholder(args)) == Ok([Text(b)]);
    assert Shortened([a, b], Limit(args), Placeholder(args)) == Ok([short] + [Text(b)]);
    assert [HomeIcon(args)] + ([short] + [Text(b)]) == ps;
    assert Layout(home + [a, b], home, args) == Ok(ps);
    assert ps[1..] == [short, Text(b)] && ps[1..][1..] == [Text(b)];
    assert Join([short, Text(b)]) == short + [Slash] + Text(b);
    assert Join(ps) == HomeIcon(args) + [Slash] + (short + [Slash] + Text(b));
    assert HomeIcon(args) + [Slash] + (short + [Slash] + Text(b)) == HomeIcon(args) + [Slash] + short + [Slash] + Text(b);
    assert Prompt(home + [a, b], home, args) == Ok(Join(ps));
  }

  /** The encoding of three slash-separated ASCII names. */
  lemma AsciiThree(a: string, b: string, c: string)
    requires IsAscii(a) && IsAscii(b) && IsAscii(c)
    ensures IsAscii(a + "/" + b + "/" + c)
    ensures Ascii(a + "/" + b + "/" + c) == Ascii(a) + [Slash] + Ascii(b) + [Slash] + Ascii(c)
  {
  }

  /** The pieces of the nested example, before they are spelled as one string. */
  lemma NestedPieces()
    ensures Prompt(AliceHome + [N("projects"), N("very-long-directory-name")], AliceHome, Defaults)
      == Ok(Ascii("~") + [Slash] + Ascii("...") + [Slash] + Ascii("very-long-directory-name"))
  {
    TwoUnderHome(AliceHome, N("projects"), N("very-long-directory-name"), Defaults);
    DefaultOptions();
    assert Shorten(Ascii("projects"), 6, Ascii("...")) == Ascii("...");
  }

  lemma NestedSpelled()
    ensures Ascii("~/.../very-long-directory-name")
      == Ascii("~") + [Slash] + Ascii("...") + [Slash] + Ascii("very-long-directory-name")
  {
    assert "~" + "/" + "..." + "/" == "~/.../";
    assert "~/.../" + "very-long-directory-name" == "~/.../very-long-directory-name";
    AsciiThree("~", "...", "very-long-directory-name");
  }

  /** `projects` (8 bytes) is elided; the long leaf is kept. */
  lemma NestedUnderHome()
    ensures Prompt(AliceHome + [N("projects"), N("very-long-directory-name")], AliceHome, Defaults)
      == Ok(Ascii("~/.../very-long-directory-name"))
  {
    NestedPieces();
    NestedSpelled();
  }

  lemma AtHome()
    ensures Prompt(AliceHome, AliceHome, Defaults) == Ok(Ascii("~"))
  {
    AtHomeIsIcon(AliceHome, Defaults);
    DefaultOptions();
  }

  lemma OutsideHome()
    ensures Prompt([RootDir, N("tmp")], AliceHome, Defaults) == Ok(Ascii("/tmp"))
  {
    var pwd := [RootDir, N("tmp")];
    assert pwd[1] != AliceHome[1];
    assert !(AliceHome <= pwd);
    assert !InHome(pwd, AliceHome) && Relative(pwd, AliceHome) == pwd;
    DefaultOptions();
    assert pwd[1..] == [N("tmp")];
    var ph := Ascii("...");
    assert Shortened(pwd[1..], 6, ph) == Ok([Ascii("tmp")]);
    assert Shortened(pwd, 6, ph) == Ok([Shorten([], 6, ph)] + [Ascii("tmp")]);
    assert Shorten([], 6, ph) == [];
    assert [Shorten([], 6, ph)] + [Ascii("tmp")] == [[], Ascii("tmp")];
    assert Shortened(pwd, Limit(Defaults), Placeholder(Defaults)) == Ok([[], Ascii("tmp")]);
    assert Layout(pwd, AliceHome, Defaults) == Ok([[], Ascii("tmp")]);
    assert [[], Ascii("tmp")][1..] == [Ascii("tmp")];
    assert Join([[], Ascii("tmp")]) == [Slash] + Ascii("tmp");
    AsciiAppend("/", "tmp");
    assert "/" + "tmp" == "/tmp";
    assert Ascii("/") == [Slash];
    assert Ascii("/tmp") == [Slash] + Ascii("tmp");
  }

  lemma AtRoot()
    ensures Prompt([RootDir], AliceHome, Defaults) == Ok(Ascii("/"))
  {
    assert !(AliceHome <= [RootDir]);
    FilesystemRootIsSlash([RootDir], AliceHome, Defaults);
    assert Ascii("/") == [Slash];
  }

  /** `documents` (9 bytes) exceeds 3 and becomes `*`; the leaf `report` stays. */
  lemma CustomOptions()
    ensures Prompt(AliceHome + [N("documents"), N("report")], AliceHome, Args(Some(3), Some(Ascii("*")), Some(Ascii("H:"))))
      == Ok(Ascii("H:/*/report"))
  {
    var args := Args(Some(3), Some(Ascii("*")), Some(Ascii("H:")));
    TwoUnderHome(AliceHome, N("documents"), N("report"), args);
    assert Shorten(Ascii("documents"), 3, Ascii("*")) == Ascii("*");
    assert "H:/*/report" == "H:" + "/" + "*" + "/" + "report";
    AsciiThree("H:", "*", "report");
  }
}
