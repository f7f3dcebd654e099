/** Clop::Command (lib/clop/command.rb): the class-level declaration
    registry, the command instance that parses a token list into attributes
    and residual arguments, and UsageError. */
module Clop {
  import opened Wrappers
  import opened Text
  import opened Switches
  import opened Declarations
  import opened Parsing
  import opened HelpFormat

  /** The caller's token array. `parse` removes tokens from its front in place
      and then keeps the very same array as the command's `arguments`. */
  class TokenList {
    var items: seq<string>

    constructor (items: seq<string>)
      ensures this.items == items
    {
      this.items := items;
    }

    /** `Array#shift`: removes and returns the first token, or `nil` when empty. */
    method Shift() returns (first: Option<string>)
      modifies this
      ensures old(items) == [] ==> first == None && items == []
      ensures old(items) != [] ==> first == Some(old(items)[0]) && items == old(items)[1..]
    {
      if items == [] {
        first := None;
      } else {
        first := Some(items[0]);
        items := items[1..];
      }
    }
  }

  /** The StringIO buffer class-level help writes into. */
  class StringBuffer {
    var text: string

    constructor ()
      ensures text == ""
    {
      text := "";
    }

    method Puts(line: string)
      modifies this
      ensures text == old(text) + PutsText(line)
    {
      text := text + PutsText(line);
    }

    /** `puts` for each line in turn, as the `each` loops of `help` do. */
    method PutsEach(lines: seq<string>)
      modifies this
      ensures text == old(text) + Emit(lines)
    {
      for i := 0 to |lines|
        invariant text == old(text) + Emit(lines[..i])
      {
        Puts(lines[i]);
        EmitStep(lines, i);
      }
      assert lines[..|lines|] == lines;
    }
  }

  /** The class-level state of one command type: its declared options,
      arguments and usage lines, each an append-only list. An empty `usages`
      stands for `@usages` never having been set. */
  class Registry {
    var options: seq<OptionDecl>
    var arguments: seq<ArgumentDecl>
    var usages: seq<string>

    constructor ()
      ensures options == [] && arguments == [] && usages == []
    {
      options, arguments, usages := [], [], [];
    }

    /** `option`: appends the option; the attribute it writes needs no
        further declaration here, since attributes are a map. */
    method DeclareOption(o: OptionDecl)
      modifies this
      ensures options == old(options) + [o]
      ensures arguments == old(arguments) && usages == old(usages)
    {
      options := options + [o];
    }

    /** `argument`: appends an argument descriptor. */
    method DeclareArgument(name: string, description: string)
      modifies this
      ensures arguments == old(arguments) + [ArgumentDecl(name, description)]
      ensures options == old(options) && usages == old(usages)
    {
      arguments := arguments + [ArgumentDecl(name, description)];
    }

    /** `usage`: appends a usage line. */
    method DeclareUsage(usage: string)
      modifies this
      ensures usages == old(usages) + [usage]
      ensures options == old(options) && arguments == old(arguments)
    {
      usages := usages + [usage];
    }

    /** `has_options?` */
    function HasOptions(): (b: bool)
      reads this
      ensures b <==> exists o :: o in options
    {
      if options == [] then false else assert options[0] in options; true
    }

    /** Class-level `help`: writes the usage block, then the Arguments and
        Options sections, line by line into a fresh buffer. */
    method Help() returns (text: string)
      ensures text == HelpText(options, arguments, usages)
    {
      var help := new StringBuffer();
      PutsUsages(help);
      ghost var usageBlock := UsageBlock(options, arguments, usages);
      assert help.text == usageBlock by {
        assert "" + usageBlock == usageBlock;
      }
      PutsArguments(help);
      ghost var argumentsText := ArgumentsText(arguments);
      assert help.text == usageBlock + argumentsText;
      PutsOptions(help);
      ghost var optionsText := OptionsText(options);
      assert help.text == usageBlock + argumentsText + optionsText;
      text := help.text;
      HelpLayout(options, arguments, usages);
    }

    /** The `Usage:` heading and one line per usage. */
    method PutsUsages(help: StringBuffer)
      modifies help
      ensures help.text == old(help.text) + UsageBlock(options, arguments, usages)
    {
      ghost var start := help.text;
      help.Puts("Usage:");
      var hasOptions := HasOptions();
      assert hasOptions == (options != []) by {
        if options != [] {
          assert options[0] in options;
        }
      }
      var lines := UsageLines(UsageTexts(usages, arguments), hasOptions);
      help.PutsEach(lines);
      UsageBlockWritten(options, arguments, usages);
      ConcatAssoc(start, PutsText("Usage:"), Emit(lines));
    }

    /** The `Arguments:` section, written only when arguments are declared. */
    method PutsArguments(help: StringBuffer)
      modifies help
      ensures help.text == old(help.text) + ArgumentsText(arguments)
    {
      ghost var start := help.text;
      if arguments != [] {
        help.Puts("\nArguments:");
        var lines := ArgumentLines(arguments);
        help.PutsEach(lines);
        ArgumentsWritten(arguments);
        ConcatAssoc(start, PutsText("\nArguments:"), Emit(lines));
      } else {
        assert start + ArgumentsText(arguments) == start;
      }
    }

    /** The `Options:` section, written only when options are declared. */
    method PutsOptions(help: StringBuffer)
      modifies help
      ensures help.text == old(help.text) + OptionsText(options)
    {
      ghost var start := help.text;
      if options != [] {
        help.Puts("\nOptions:");
        var lines := OptionLines(options);
        help.PutsEach(lines);
        OptionsWritten(options);
        ConcatAssoc(start, PutsText("\nOptions:"), Emit(lines));
      } else {
        assert start + OptionsText(options) == start;
      }
    }
  }

  /** What `parse`, `run` and `execute` raise: UsageError carries the command
      that raised it; the other failures are plain RuntimeErrors. */
  datatype Error = UsageError(message: string, command: Command) | RuntimeError(message: string)

  class Command {
    const name: string
    /** The command's class, whose declarations it parses against. */
    const registry: Registry
    /** The option attributes written so far, by attribute name. */
    var attributes: map<string, Value>
    /** The residual arguments: `nil` until a parse completes. */
    var arguments: TokenList?

    constructor (name: string, registry: Registry)
      ensures this.name == name && this.registry == registry
      ensures attributes == map[] && arguments == null
    {
      this.name := name;
      this.registry := registry;
      attributes := map[];
      arguments := null;
    }

    /** How a failure of the parse specification is raised by this command. */
    function Raised(f: Failure): (e: Error)
      ensures e.message == Message(f)
      ensures e.UsageError? <==> f.Unrecognised?
      ensures e.UsageError? ==> e.command == this
    {
      match f
      case Unrecognised(_) => UsageError(Message(f), this)
      case CantHandle(_) => RuntimeError(Message(f))
    }

    /** The instance-level `find_option`: the declared option with switch
        `key`, or a UsageError naming the key and this command. */
    function FindOption(key: string): (r: Result<OptionDecl, Error>)
      reads registry
      ensures r.Success? <==> exists i :: 0 <= i < |registry.options| && registry.options[i].switch == key
      ensures r.Success? ==> r.value in registry.options && r.value.switch == key
      ensures r.Success? ==> Declarations.FindOption(registry.options, key) == Some(r.value)
      ensures r.Failure? ==> r.error == UsageError(Message(Unrecognised(key)), this)
    {
      match Declarations.FindOption(registry.options, key)
      case Some(o) => Success(o)
      case None => Failure(UsageError(Message(Unrecognised(key)), this))
    }

    /** The usage error `parse` raises for an unknown switch is the one the
        instance-level `find_option` signals for it. */
    lemma RaisedByFindOption(key: string)
      requires FindOption(key).Failure?
      ensures Raised(Unrecognised(key)) == FindOption(key).error
    {
    }

    /** `parse`: strips leading switches off `tokens`, writing attributes as
        it goes, then keeps `tokens` itself as `arguments` and returns it. On
        a failure the attributes already written stay written, the offending
        token has been removed, and `arguments` is left as it was. */
    method Parse(tokens: TokenList) returns (result: Result<TokenList, Error>)
      modifies this, tokens
      ensures var r := Scan(registry.options, old(attributes), old(tokens.items));
        && attributes == r.attributes
        && tokens.items == r.rest
        && (r.failure.None? ==> result == Success(tokens) && arguments == tokens)
        && (r.failure.Some? ==> result == Failure(Raised(r.failure.value)) && arguments == old(arguments))
    {
      ghost var target := Scan(registry.options, attributes, tokens.items);
      while tokens.items != [] && StartsWithDash(tokens.items[0])
        invariant Scan(registry.options, attributes, tokens.items) == target
        invariant arguments == old(arguments)
        decreases |tokens.items|
      {
        ghost var before := tokens.items;
        var shifted := tokens.Shift();
        var switch := shifted.value;
        assert before == [switch] + tokens.items;
        match Classify(switch)
        case Terminator =>
          ScanTerminator(registry.options, attributes, tokens.items);
          break;
        case Switch(key) =>
          var found := FindOption(key);
          if found.Failure? {
            ScanUnknown(registry.options, attributes, switch, tokens.items);
            return Failure(found.error);
          }
          var option := found.value;
          assert Declarations.FindOption(registry.options, key) == Some(option);
          var value: Value;
          if option.flag {
            ScanFlag(registry.options, attributes, switch, tokens.items);
            value := True;
          } else {
            var next := tokens.Shift();
            if next.Some? {
              assert before == [switch, next.value] + tokens.items;
              ScanValue(registry.options, attributes, switch, next.value, tokens.items);
              value := Str(next.value);
            } else {
              assert before == [switch];
              ScanValueMissing(registry.options, attributes, switch);
              value := Nil;
            }
          }
          attributes := attributes[option.attribute := value];
        case Malformed =>
          ScanMalformed(registry.options, attributes, switch, tokens.items);
          return Failure(RuntimeError(Message(CantHandle(switch))));
        case Positional =>
          assert false;
      }
      arguments := tokens;
      return Success(tokens);
    }

    /** The base `execute`: a command that does not define its own fails. */
    method Execute() returns (error: Option<Error>)
      ensures error == Some(RuntimeError("you need to define #execute"))
    {
      error := Some(RuntimeError("you need to define #execute"));
    }

    /** `run`: parse, and only if that succeeds, execute. */
    method Run(tokens: TokenList) returns (error: Option<Error>)
      modifies this, tokens
      ensures var r := Scan(registry.options, old(attributes), old(tokens.items));
        && attributes == r.attributes
        && tokens.items == r.rest
        && (r.failure.None? ==> error == Some(RuntimeError("you need to define #execute")) && arguments == tokens)
        && (r.failure.Some? ==> error == Some(Raised(r.failure.value)) && arguments == old(arguments))
    {
      var parsed := Parse(tokens);
      if parsed.Failure? {
        return Some(parsed.error);
      }
      error := Execute();
    }

    /** Instance `help`: the class help with the placeholder replaced by
        this command's name. */
    method Help() returns (text: string)
      ensures text == InstanceHelp(registry.options, registry.arguments, registry.usages, name)
      ensures "Usage:\n    " + name <= text
    {
      var classHelp := registry.Help();
      text := ReplaceAll(classHelp, Placeholder, name);
      InstanceHelpStartsWithName(registry.options, registry.arguments, registry.usages, name);
    }
  }
}
