/** The descriptors a command type declares: options and positional
    arguments. Clop::Option and Clop::Argument are not part of this model;
    a descriptor carries the values the command reads from them. */
module Declarations {
  import opened Wrappers

  /** A declared option, as `Command` sees it: its `switch`, the attribute
      its value is stored under, whether it is a flag (`flag?`), and the help
      line it renders for itself. */
  datatype OptionDecl = OptionDecl(switch: string, attribute: string, flag: bool, help: string)

  /** A declared positional argument: used only for help text. */
  datatype ArgumentDecl = ArgumentDecl(name: string, description: string)

  /** The class-level `find_option`: the first declared option whose switch
      equals `key` exactly, or nothing. */
  function FindOption(options: seq<OptionDecl>, key: string): (r: Option<OptionDecl>)
    ensures r.Some? ==> r.value in options && r.value.switch == key
    ensures r.None? <==> forall i :: 0 <= i < |options| ==> options[i].switch != key
    decreases |options|
  {
    if options == [] then None
    else if options[0].switch == key then Some(options[0])
    else FindOption(options[1..], key)
  }

  /** Lookup returns the earliest option with that switch. */
  lemma {:induction false} FindOptionFirst(options: seq<OptionDecl>, i: nat, key: string)
    requires i < |options| && options[i].switch == key
    requires forall j :: 0 <= j < i ==> options[j].switch != key
    ensures FindOption(options, key) == Some(options[i])
    decreases i
  {
    if i > 0 {
      FindOptionFirst(options[1..], i - 1, key);
    }
  }

  /** Declaring another option never changes a lookup that already succeeds:
      a later duplicate switch is never found. */
  lemma {:induction false} FindOptionShadows(options: seq<OptionDecl>, o: OptionDecl, key: string)
    requires FindOption(options, key).Some?
    ensures FindOption(options + [o], key) == FindOption(options, key)
    decreases |options|
  {
    if options[0].switch != key {
      assert (options + [o])[1..] == options[1..] + [o];
      FindOptionShadows(options[1..], o, key);
    }
  }

  /** A newly declared option is found by its switch when no earlier option
      has the same switch. */
  lemma FindOptionDeclared(options: seq<OptionDecl>, o: OptionDecl)
    requires FindOption(options, o.switch).None?
    ensures FindOption(options + [o], o.switch) == Some(o)
  {
    FindOptionFirst(options + [o], |options|, o.switch);
  }

  /** The attributes some declared option writes to. */
  function Attributes(options: seq<OptionDecl>): set<string> {
    set o | o in options :: o.attribute
  }
}
