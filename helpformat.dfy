/** The text the class-level `help` builds (lib/clop/command.rb:99-121) and
    the instance-level substitution of the command name (lines 44-46), as
    functions of the declarations. The imperative `Clop.Registry.Help` is
    proved to write exactly `HelpText`. */
module HelpFormat {
  import opened Text
  import opened Declarations

  /** Stands for the command name in class-level help. */
  const Placeholder: string := "__COMMAND__"

  /** Width of the name column in the Arguments section (`%-31s`). */
  const NameWidth: nat := 31

  /** What `puts` writes for one string: a newline is added unless the string
      already ends in one. */
  function PutsText(line: string): (r: string)
    ensures |r| > 0 && r[|r| - 1] == '\n'
    ensures line <= r && |r| <= |line| + 1
    ensures r == line <==> (line != [] && line[|line| - 1] == '\n')
  {
    if line != [] && line[|line| - 1] == '\n' then line else line + "\n"
  }

  /** Everything `puts` writes for the given lines in turn. */
  function Emit(lines: seq<string>): (r: string)
    ensures |r| >= |lines|
    decreases |lines|
  {
    if lines == [] then "" else Emit(lines[..|lines| - 1]) + PutsText(lines[|lines| - 1])
  }

  lemma EmitSnoc(lines: seq<string>, line: string)
    ensures Emit(lines + [line]) == Emit(lines) + PutsText(line)
  {
    assert (lines + [line])[..|lines|] == lines;
  }

  /** Writing one more line of a list. */
  lemma EmitStep(lines: seq<string>, i: nat)
    requires i < |lines|
    ensures Emit(lines[..i + 1]) == Emit(lines[..i]) + PutsText(lines[i])
  {
    assert lines[..i + 1] == lines[..i] + [lines[i]];
    EmitSnoc(lines[..i], lines[i]);
  }

  /** Writing two groups of lines writes the first group and then the second. */
  lemma {:induction false} EmitAppend(a: seq<string>, b: seq<string>)
    ensures Emit(a + b) == Emit(a) + Emit(b)
    decreases |b|
  {
    if b == [] {
      assert a + b == a;
    } else {
      var init := b[..|b| - 1];
      assert a + b == (a + init) + [b[|b| - 1]];
      assert b == init + [b[|b| - 1]];
      EmitAppend(a, init);
      EmitSnoc(a + init, b[|b| - 1]);
      EmitSnoc(init, b[|b| - 1]);
    }
  }

  /** Output of at least one `puts` ends in a newline. */
  lemma EmitEndsInNewline(lines: seq<string>)
    requires lines != []
    ensures Emit(lines) != [] && Emit(lines)[|Emit(lines)| - 1] == '\n'
  {
  }

  /** The start of every usage line: indentation, the placeholder and, when
      any option is declared, ` [OPTIONS]`. */
  function Banner(hasOptions: bool): (r: string)
    ensures "    " + Placeholder <= r
    ensures |r| == if hasOptions then 25 else 15
    ensures !IsStripSpace(r[|r| - 1])
  {
    "    " + Placeholder + (if hasOptions then " [OPTIONS]" else "")
  }

  /** `"    #{command} #{usage}".rstrip`. */
  function UsageLine(usage: string, hasOptions: bool): (r: string)
    ensures Banner(hasOptions) <= r
    ensures r <= Banner(hasOptions) + " " + usage
    ensures !IsStripSpace(r[|r| - 1])
    ensures forall i :: |r| <= i < |Banner(hasOptions)| + 1 + |usage| ==>
              IsStripSpace((Banner(hasOptions) + " " + usage)[i])
  {
    var b := Banner(hasOptions);
    assert b + " " + usage == b + (" " + usage);
    RStripAfter(b, " " + usage);
    RStrip(b + " " + usage)
  }

  /** A blank usage (as derived when no argument is declared) gives the
      banner alone. */
  lemma UsageLineBlank(usage: string, hasOptions: bool)
    requires forall i :: 0 <= i < |usage| ==> IsStripSpace(usage[i])
    ensures UsageLine(usage, hasOptions) == Banner(hasOptions)
  {
    var b := Banner(hasOptions);
    var s := b + " " + usage;
    forall i | |b| <= i < |s| ensures IsStripSpace(s[i]) {
      if i > |b| {
        assert s[i] == usage[i - |b| - 1];
      }
    }
    RStripUnique(s, b);
  }

  function Names(arguments: seq<ArgumentDecl>): seq<string> {
    seq(|arguments|, i requires 0 <= i < |arguments| => arguments[i].name)
  }

  /** `derived_usage`: the argument names joined by single spaces. */
  function DerivedUsage(arguments: seq<ArgumentDecl>): (r: string)
    ensures arguments == [] ==> r == []
    ensures arguments != [] ==> arguments[0].name <= r
    ensures arguments != [] ==> |r| == TotalLength(Names(arguments)) + |arguments| - 1
  {
    if arguments == [] then Join([], " ")
    else JoinLength(Names(arguments), " "); Join(Names(arguments), " ")
  }

  /** `@usages || [derived_usage]`: the declared usages, or one derived one. */
  function UsageTexts(usages: seq<string>, arguments: seq<ArgumentDecl>): (r: seq<string>)
    ensures |r| == if usages == [] then 1 else |usages|
    ensures forall i :: 0 <= i < |usages| ==> r[i] == usages[i]
  {
    if usages != [] then usages else [DerivedUsage(arguments)]
  }

  function UsageLines(texts: seq<string>, hasOptions: bool): seq<string> {
    seq(|texts|, i requires 0 <= i < |texts| => UsageLine(texts[i], hasOptions))
  }

  /** `"    %-31s %s" % [name, description]`: the name in a column of at
      least 31 characters, never cut short, then one space and the description. */
  function ArgumentLine(a: ArgumentDecl): (r: string)
    ensures var column := 4 + (if |a.name| < NameWidth then NameWidth else |a.name|);
      && |r| == column + 1 + |a.description|
      && r[..4] == "    "
      && r[4..4 + |a.name|] == a.name
      && (forall i :: 4 + |a.name| <= i <= column ==> r[i] == ' ')
      && r[column + 1..] == a.description
  {
    var padded := PadRight(a.name, NameWidth);
    var r := "    " + padded + " " + a.description;
    assert r[4..4 + |padded|] == padded;
    assert r[4..4 + |a.name|] == padded[..|a.name|];
    r
  }

  function ArgumentLines(arguments: seq<ArgumentDecl>): seq<string> {
    seq(|arguments|, i requires 0 <= i < |arguments| => ArgumentLine(arguments[i]))
  }

  /** Each option renders its own help line; the command only indents it. */
  function OptionLine(o: OptionDecl): (r: string)
    ensures "    " <= r && r[4..] == o.help
  {
    "    " + o.help
  }

  function OptionLines(options: seq<OptionDecl>): seq<string> {
    seq(|options|, i requires 0 <= i < |options| => OptionLine(options[i]))
  }

  function ArgumentsSection(arguments: seq<ArgumentDecl>): seq<string> {
    if arguments == [] then [] else ["\nArguments:"] + ArgumentLines(arguments)
  }

  function OptionsSection(options: seq<OptionDecl>): seq<string> {
    if options == [] then [] else ["\nOptions:"] + OptionLines(options)
  }

  /** The strings class-level help hands to `puts`, in order. */
  function HelpLines(options: seq<OptionDecl>, arguments: seq<ArgumentDecl>, usages: seq<string>): seq<string> {
    ["Usage:"] + UsageLines(UsageTexts(usages, arguments), options != [])
      + ArgumentsSection(arguments) + OptionsSection(options)
  }

  /** The class-level help text. */
  function HelpText(options: seq<OptionDecl>, arguments: seq<ArgumentDecl>, usages: seq<string>): (r: string)
    ensures "Usage:" <= r && r[|r| - 1] == '\n'
  {
    var lines := HelpLines(options, arguments, usages);
    EmitStartsWith("Usage:", lines);
    Emit(lines)
  }

  /** The instance-level help text: every placeholder replaced by the name. */
  function InstanceHelp(options: seq<OptionDecl>, arguments: seq<ArgumentDecl>, usages: seq<string>, name: string): (r: string)
    ensures |name| <= |Placeholder| ==> |r| <= |HelpText(options, arguments, usages)|
    ensures |name| >= |Placeholder| ==> |r| >= |HelpText(options, arguments, usages)|
  {
    ReplaceAll(HelpText(options, arguments, usages), Placeholder, name)
  }

  /** The usage block: the heading and one line per usage text. */
  function UsageBlock(options: seq<OptionDecl>, arguments: seq<ArgumentDecl>, usages: seq<string>): string {
    "Usage:\n" + Emit(UsageLines(UsageTexts(usages, arguments), options != []))
  }

  lemma EmitCons(line: string, rest: seq<string>)
    ensures Emit([line] + rest) == PutsText(line) + Emit(rest)
  {
    EmitAppend([line], rest);
    assert [line][..0] == [];
  }

  /** A section heading with its lines. */
  lemma EmitSection(heading: string, lines: seq<string>)
    requires heading != [] && heading[|heading| - 1] != '\n'
    ensures Emit([heading] + lines) == heading + "\n" + Emit(lines)
  {
    EmitCons(heading, lines);
  }

  /** Output of `puts` for a list of lines begins with what the first line
      begins with, and ends in a newline. */
  lemma EmitStartsWith(p: string, lines: seq<string>)
    requires lines != [] && p <= lines[0]
    ensures p <= Emit(lines) && Emit(lines)[|Emit(lines)| - 1] == '\n'
  {
    assert lines == [lines[0]] + lines[1..];
    EmitCons(lines[0], lines[1..]);
    PrefixTransitive(p, lines[0], PutsText(lines[0]));
    PrefixTransitive(p, PutsText(lines[0]), Emit(lines));
    EmitEndsInNewline(lines);
  }

  /** The usage block starts with the heading and the first line's banner,
      and ends in a newline. */
  lemma UsageBlockShape(options: seq<OptionDecl>, arguments: seq<ArgumentDecl>, usages: seq<string>)
    ensures var u := UsageBlock(options, arguments, usages);
      "Usage:\n" + Banner(options != []) <= u && u[|u| - 1] == '\n'
  {
    var texts := UsageTexts(usages, arguments);
    var ul := UsageLines(texts, options != []);
    var b := Banner(options != []);
    assert ul[0] == UsageLine(texts[0], options != []);
    EmitStartsWith(b, ul);
    PrefixExtend("Usage:\n", b, Emit(ul));
  }

  /** The Arguments section as text: empty when no argument is declared. */
  function ArgumentsText(arguments: seq<ArgumentDecl>): (r: string)
    ensures r == [] <==> arguments == []
    ensures r != [] ==> "\nArguments:\n" <= r && r[|r| - 1] == '\n'
  {
    if arguments == [] then "" else "\nArguments:\n" + Emit(ArgumentLines(arguments))
  }

  /** The Options section as text: empty when no option is declared. */
  function OptionsText(options: seq<OptionDecl>): (r: string)
    ensures r == [] <==> options == []
    ensures r != [] ==> "\nOptions:\n" <= r && r[|r| - 1] == '\n'
  {
    if options == [] then "" else "\nOptions:\n" + Emit(OptionLines(options))
  }

  lemma EmitArgumentsSection(arguments: seq<ArgumentDecl>)
    ensures Emit(ArgumentsSection(arguments)) == ArgumentsText(arguments)
  {
    if arguments != [] {
      EmitSection("\nArguments:", ArgumentLines(arguments));
      assert "\nArguments:" + "\n" == "\nArguments:\n";
    }
  }

  lemma EmitOptionsSection(options: seq<OptionDecl>)
    ensures Emit(OptionsSection(options)) == OptionsText(options)
  {
    if options != [] {
      EmitSection("\nOptions:", OptionLines(options));
      assert "\nOptions:" + "\n" == "\nOptions:\n";
    }
  }

  /** What `puts` writes for a heading and then its lines, per section. */
  lemma UsageBlockWritten(options: seq<OptionDecl>, arguments: seq<ArgumentDecl>, usages: seq<string>)
    ensures PutsText("Usage:") + Emit(UsageLines(UsageTexts(usages, arguments), options != [])) == UsageBlock(options, arguments, usages)
  {
    assert PutsText("Usage:") == "Usage:\n";
  }

  lemma ArgumentsWritten(arguments: seq<ArgumentDecl>)
    requires arguments != []
    ensures PutsText("\nArguments:") + Emit(ArgumentLines(arguments)) == ArgumentsText(arguments)
  {
    assert PutsText("\nArguments:") == "\nArguments:\n";
  }

  lemma OptionsWritten(options: seq<OptionDecl>)
    requires options != []
    ensures PutsText("\nOptions:") + Emit(OptionLines(options)) == OptionsText(options)
  {
    assert PutsText("\nOptions:") == "\nOptions:\n";
  }

  /** Layout of the help text: the usage block, then the Arguments section
      (empty unless arguments are declared), then the Options section (empty
      unless options are declared). */
  lemma HelpLayout(options: seq<OptionDecl>, arguments: seq<ArgumentDecl>, usages: seq<string>)
    ensures HelpText(options, arguments, usages) ==
              UsageBlock(options, arguments, usages) + ArgumentsText(arguments) + OptionsText(options)
  {
    var ul := UsageLines(UsageTexts(usages, arguments), options != []);
    var asec := ArgumentsSection(arguments);
    var osec := OptionsSection(options);
    assert HelpLines(options, arguments, usages) == ["Usage:"] + ul + asec + osec;
    EmitLayout(ul, asec, osec);
    EmitArgumentsSection(arguments);
    EmitOptionsSection(options);
  }

  /** The heading and three groups of lines, written in turn. */
  lemma EmitLayout(ul: seq<string>, asec: seq<string>, osec: seq<string>)
    ensures Emit(["Usage:"] + ul + asec + osec) == "Usage:\n" + Emit(ul) + Emit(asec) + Emit(osec)
  {
    var head := ["Usage:"] + ul;
    EmitAppend(head + asec, osec);
    EmitAppend(head, asec);
    EmitSection("Usage:", ul);
    assert "Usage:" + "\n" == "Usage:\n";
  }

  /** Each section opens with a blank line: its text starts with a newline
      (ArgumentsText, OptionsText), and the text before it ends in one. */
  lemma SectionsOpenOnNewline(options: seq<OptionDecl>, arguments: seq<ArgumentDecl>, usages: seq<string>)
    ensures var u := UsageBlock(options, arguments, usages); u != [] && u[|u| - 1] == '\n'
    ensures var ua := UsageBlock(options, arguments, usages) + ArgumentsText(arguments); ua[|ua| - 1] == '\n'
  {
    UsageBlockShape(options, arguments, usages);
  }

  /** With no declared usage there is exactly one usage line, built from the
      argument names; otherwise one line per declared usage. */
  lemma UsageLineCount(options: seq<OptionDecl>, arguments: seq<ArgumentDecl>, usages: seq<string>)
    ensures |UsageLines(UsageTexts(usages, arguments), options != [])| == if usages == [] then 1 else |usages|
    ensures usages == [] ==>
      UsageLines(UsageTexts(usages, arguments), options != [])[0] == UsageLine(Join(Names(arguments), " "), options != [])
  {
  }

  /** Class help starts with the heading and the placeholder of the first usage line. */
  lemma HelpStartsWithPlaceholder(options: seq<OptionDecl>, arguments: seq<ArgumentDecl>, usages: seq<string>)
    ensures "Usage:\n    " + Placeholder <= HelpText(options, arguments, usages)
  {
    HelpLayout(options, arguments, usages);
    UsageBlockShape(options, arguments, usages);
    var u := UsageBlock(options, arguments, usages);
    BannerPlaceholder(options != [], u);
    PrefixTransitive(u, u + ArgumentsText(arguments) + OptionsText(options), HelpText(options, arguments, usages));
    PrefixTransitive("Usage:\n    " + Placeholder, u, HelpText(options, arguments, usages));
  }

  lemma BannerPlaceholder(hasOptions: bool, u: string)
    requires "Usage:\n" + Banner(hasOptions) <= u
    ensures "Usage:\n    " + Placeholder <= u
  {
    var lead := "Usage:\n    " + Placeholder;
    var x: string := if hasOptions then " [OPTIONS]" else "";
    assert "Usage:\n" + Banner(hasOptions) == lead + x;
    PrefixTransitive(lead, lead + x, u);
  }

  /** Substitution in a text that starts with `lead` and the placeholder,
      where no character of `lead` can start the placeholder. */
  lemma ReplaceLeading(lead: string, text: string, name: string)
    requires forall i :: 0 <= i < |lead| ==> lead[i] != Placeholder[0]
    requires lead + Placeholder <= text
    ensures lead + name <= ReplaceAll(text, Placeholder, name)
  {
    var tail := text[|lead + Placeholder|..];
    assert text == lead + (Placeholder + tail);
    ReplaceAllSkip(lead, Placeholder + tail, Placeholder, name);
    ReplaceAllLeading(Placeholder, tail, name);
  }

  /** Substitution in text that starts like class help. */
  lemma ReplaceLeadingPlaceholder(text: string, name: string)
    requires "Usage:\n    " + Placeholder <= text
    ensures "Usage:\n    " + name <= ReplaceAll(text, Placeholder, name)
  {
    ReplaceLeading("Usage:\n    ", text, name);
  }

  /** Instance help begins with the usage heading and the command's name:
      the first placeholder is replaced, and nothing before it is touched. */
  lemma InstanceHelpStartsWithName(options: seq<OptionDecl>, arguments: seq<ArgumentDecl>, usages: seq<string>, name: string)
    ensures "Usage:\n    " + name <= InstanceHelp(options, arguments, usages, name)
  {
    HelpStartsWithPlaceholder(options, arguments, usages);
    ReplaceLeadingPlaceholder(HelpText(options, arguments, usages), name);
  }

  /** A command named after the placeholder itself gets the class help unchanged. */
  lemma InstanceHelpOfPlaceholder(options: seq<OptionDecl>, arguments: seq<ArgumentDecl>, usages: seq<string>)
    ensures InstanceHelp(options, arguments, usages, Placeholder) == HelpText(options, arguments, usages)
  {
    ReplaceAllSelf(HelpText(options, arguments, usages), Placeholder);
  }

  lemma PlaceholderNoNewline()
    ensures forall j :: 0 <= j < |Placeholder| ==> Placeholder[j] != '\n'
  {
  }

  /** What instance help makes of the output of `puts` for each line. */
  function InstanceLines(lines: seq<string>, name: string): seq<string> {
    seq(|lines|, i requires 0 <= i < |lines| => ReplaceAll(PutsText(lines[i]), Placeholder, name))
  }

  /** Substitution in the output of several `puts` works line by line,
      since each line ends in a newline and the placeholder has none. */
  lemma {:induction false} ReplaceEmit(lines: seq<string>, name: string)
    ensures ReplaceAll(Emit(lines), Placeholder, name) == Concat(InstanceLines(lines, name))
    decreases |lines|
  {
    if lines == [] {
      assert InstanceLines(lines, name) == [];
    } else {
      var init := lines[..|lines| - 1];
      var last := PutsText(lines[|lines| - 1]);
      assert InstanceLines(lines, name)[..|lines| - 1] == InstanceLines(init, name);
      ReplaceEmit(init, name);
      if init == [] {
        assert Emit(init) + last == last;
      } else {
        EmitEndsInNewline(init);
        PlaceholderNoNewline();
        ReplaceAllSplit(Emit(init), last, Placeholder, name);
      }
    }
  }

  /** One usage line of instance help starts with the indented name and
      ends in a newline. */
  lemma InstanceUsageLine(usage: string, hasOptions: bool, name: string)
    ensures var p := ReplaceAll(PutsText(UsageLine(usage, hasOptions)), Placeholder, name);
      "    " + name <= p && p != [] && p[|p| - 1] == '\n'
  {
    var line := PutsText(UsageLine(usage, hasOptions));
    PrefixTransitive("    " + Placeholder, Banner(hasOptions), UsageLine(usage, hasOptions));
    PrefixTransitive("    " + Placeholder, UsageLine(usage, hasOptions), line);
    ReplaceLeading("    ", line, name);
    PlaceholderNoNewline();
    ReplaceAllLast(line, Placeholder, name);
  }

  /** Substitution in a heading, lines written by `puts` and a rest. */
  lemma ReplaceHelpSplit(ul: seq<string>, rest: string, name: string)
    requires ul != []
    ensures ReplaceAll("Usage:\n" + Emit(ul) + rest, Placeholder, name) ==
      "Usage:\n" + Concat(InstanceLines(ul, name)) + ReplaceAll(rest, Placeholder, name)
  {
    var e := Emit(ul);
    ConcatAssoc("Usage:\n", e, rest);
    ReplaceAllSkip("Usage:\n", e + rest, Placeholder, name);
    EmitEndsInNewline(ul);
    PlaceholderNoNewline();
    ReplaceAllSplit(e, rest, Placeholder, name);
    ReplaceEmit(ul, name);
    ConcatAssoc("Usage:\n", ReplaceAll(e, Placeholder, name), ReplaceAll(rest, Placeholder, name));
  }

  /** Instance help is the heading, the substituted usage lines, then the
      substituted sections. */
  lemma InstanceHelpSplit(options: seq<OptionDecl>, arguments: seq<ArgumentDecl>, usages: seq<string>, name: string)
    ensures InstanceHelp(options, arguments, usages, name) ==
      "Usage:\n" + Concat(InstanceLines(UsageLines(UsageTexts(usages, arguments), options != []), name))
        + ReplaceAll(ArgumentsText(arguments) + OptionsText(options), Placeholder, name)
  {
    var ul := UsageLines(UsageTexts(usages, arguments), options != []);
    HelpLayout(options, arguments, usages);
    ConcatAssoc("Usage:\n" + Emit(ul), ArgumentsText(arguments), OptionsText(options));
    UsageLineCount(options, arguments, usages);
    ReplaceHelpSplit(ul, ArgumentsText(arguments) + OptionsText(options), name);
  }

  /** Each substituted usage line starts with the indented name and ends in
      a newline. */
  lemma InstanceLinesStart(texts: seq<string>, hasOptions: bool, name: string)
    ensures var pieces := InstanceLines(UsageLines(texts, hasOptions), name);
      && |pieces| == |texts|
      && forall i :: 0 <= i < |pieces| ==> "    " + name <= pieces[i] && pieces[i][|pieces[i]| - 1] == '\n'
  {
    var pieces := InstanceLines(UsageLines(texts, hasOptions), name);
    forall i | 0 <= i < |pieces|
      ensures "    " + name <= pieces[i] && pieces[i][|pieces[i]| - 1] == '\n'
    {
      InstanceUsageLine(texts[i], hasOptions, name);
    }
  }

  /** Every usage line of instance help, not just the first, starts with the
      indented command name: there is one per usage text, each ending in a
      newline. */
  lemma InstanceUsageLines(options: seq<OptionDecl>, arguments: seq<ArgumentDecl>, usages: seq<string>, name: string)
    ensures var pieces := InstanceLines(UsageLines(UsageTexts(usages, arguments), options != []), name);
      && |pieces| == (if usages == [] then 1 else |usages|)
      && forall i :: 0 <= i < |pieces| ==> "    " + name <= pieces[i] && pieces[i][|pieces[i]| - 1] == '\n'
  {
    InstanceLinesStart(UsageTexts(usages, arguments), options != [], name);
  }
}
