/** What `Command#parse` (lib/clop/command.rb:15-33) computes, as a function
    of the declared options, the attributes before the call and the token
    list: the attributes afterwards, the tokens left in the list and the
    failure raised, if any. The imperative `Clop.Command.Parse` is proved to
    do exactly this. */
module Parsing {
  import opened Wrappers
  import opened Switches
  import opened Declarations

  /** What an option attribute can hold: `true` for a flag, the following
      token for a value option, or `nil` when no token followed. */
  datatype Value = True | Str(text: string) | Nil

  /** The two ways parsing fails: an unknown well-formed switch (raised as a
      UsageError) and a dash token of neither shape (a plain RuntimeError). */
  datatype Failure = Unrecognised(key: string) | CantHandle(token: string)

  /** The text of the error raised; the key or token can be read back from
      it, and the two kinds cannot be confused. */
  function Message(f: Failure): (r: string)
    ensures r != [] && (r[0] == 'U' <==> f.Unrecognised?)
    ensures f.Unrecognised? ==> |r| == |f.key| + 22 && r[21..|r| - 1] == f.key
    ensures f.CantHandle? ==> |r| == |f.token| + 13 && r[13..] == f.token
  {
    match f
    case Unrecognised(key) => "Unrecognised option '" + key + "'"
    case CantHandle(token) => "can't handle " + token
  }

  datatype Outcome = Outcome(attributes: map<string, Value>, rest: seq<string>, failure: Option<Failure>)

  /** The token just before the residue `rest`, which is a suffix of `tokens`. */
  function Consumed(tokens: seq<string>, rest: seq<string>): string
    requires |rest| < |tokens|
  {
    tokens[|tokens| - |rest| - 1]
  }

  /** One call of `parse` on the token list, from the given attributes. */
  function Scan(options: seq<OptionDecl>, attributes: map<string, Value>, tokens: seq<string>): (r: Outcome)
    ensures |r.rest| <= |tokens|
    ensures r.failure.Some? ==> |r.rest| < |tokens|
    ensures r.rest == tokens ==> r.failure.None? && r.attributes == attributes
    decreases |tokens|
  {
    if tokens == [] then Outcome(attributes, tokens, None)
    else match Classify(tokens[0])
      case Positional => Outcome(attributes, tokens, None)
      case Terminator => Outcome(attributes, tokens[1..], None)
      case Malformed => Outcome(attributes, tokens[1..], Some(CantHandle(tokens[0])))
      case Switch(key) =>
        match FindOption(options, key)
        case None => Outcome(attributes, tokens[1..], Some(Unrecognised(key)))
        case Some(o) =>
          if o.flag then Scan(options, attributes[o.attribute := True], tokens[1..])
          else if |tokens| == 1 then Scan(options, attributes[o.attribute := Nil], [])
          else Scan(options, attributes[o.attribute := Str(tokens[1])], tokens[2..])
  }

  /** A suffix of a suffix of `tokens` is a suffix of `tokens`. */
  lemma SuffixOfSuffix(tokens: seq<string>, later: seq<string>, rest: seq<string>)
    requires |later| <= |tokens| && later == tokens[|tokens| - |later|..]
    requires |rest| <= |later| && rest == later[|later| - |rest|..]
    ensures rest == tokens[|tokens| - |rest|..]
  {
  }

  /** The token before a residue is the same whether counted from the
      whole input or from a suffix of it that still contains that token. */
  lemma ConsumedLater(tokens: seq<string>, later: seq<string>, rest: seq<string>)
    requires |later| <= |tokens| && later == tokens[|tokens| - |later|..]
    requires |rest| < |later|
    ensures |rest| < |tokens| && Consumed(tokens, rest) == Consumed(later, rest)
  {
    assert later[|later| - |rest| - 1] == tokens[|tokens| - |later|..][|later| - |rest| - 1];
  }

  /** The residue is what is left of the input, in order and unchanged. */
  lemma {:induction false} ScanSuffix(options: seq<OptionDecl>, attributes: map<string, Value>, tokens: seq<string>)
    ensures var r := Scan(options, attributes, tokens);
      |r.rest| <= |tokens| && r.rest == tokens[|tokens| - |r.rest|..]
    decreases |tokens|
  {
    if tokens != [] && Classify(tokens[0]).Switch? && FindOption(options, Classify(tokens[0]).key).Some? {
      var o := FindOption(options, Classify(tokens[0]).key).value;
      if o.flag {
        ScanSuffix(options, attributes[o.attribute := True], tokens[1..]);
        SuffixOfSuffix(tokens, tokens[1..], Scan(options, attributes[o.attribute := True], tokens[1..]).rest);
      } else if |tokens| == 1 {
        ScanSuffix(options, attributes[o.attribute := Nil], []);
      } else {
        ScanSuffix(options, attributes[o.attribute := Str(tokens[1])], tokens[2..]);
        SuffixOfSuffix(tokens, tokens[2..], Scan(options, attributes[o.attribute := Str(tokens[1])], tokens[2..]).rest);
      }
    } else if tokens != [] {
      assert tokens[|tokens| - |tokens[1..]|..] == tokens[1..];
      assert tokens[|tokens| - |tokens|..] == tokens;
    }
  }

  /** Stopping rule: without a failure, scanning ended at the end of the
      input, at a token not starting with `-`, or right after a `--`. */
  lemma {:induction false} ScanStops(options: seq<OptionDecl>, attributes: map<string, Value>, tokens: seq<string>)
    ensures var r := Scan(options, attributes, tokens);
      r.failure.None? && r.rest != [] && StartsWithDash(r.rest[0]) ==>
        |r.rest| < |tokens| && Consumed(tokens, r.rest) == "--"
    decreases |tokens|, 1
  {
    if tokens != [] && Classify(tokens[0]).Switch? && FindOption(options, Classify(tokens[0]).key).Some? {
      var o := FindOption(options, Classify(tokens[0]).key).value;
      if o.flag {
        StopsAfter(options, attributes[o.attribute := True], tokens, tokens[1..]);
      } else if |tokens| > 1 {
        StopsAfter(options, attributes[o.attribute := Str(tokens[1])], tokens, tokens[2..]);
      }
    } else if tokens != [] {
      assert Consumed(tokens, tokens[1..]) == tokens[0];
    }
  }

  /** ScanStops carried from a scan of a suffix `later` to the whole input. */
  lemma {:induction false} StopsAfter(options: seq<OptionDecl>, attributes: map<string, Value>, tokens: seq<string>, later: seq<string>)
    requires |later| < |tokens| && later == tokens[|tokens| - |later|..]
    ensures var r := Scan(options, attributes, later);
      r.failure.None? && r.rest != [] && StartsWithDash(r.rest[0]) ==>
        |r.rest| < |tokens| && Consumed(tokens, r.rest) == "--"
    decreases |later|, 2
  {
    ScanSuffix(options, attributes, later);
    ScanStops(options, attributes, later);
    var r := Scan(options, attributes, later);
    if |r.rest| < |later| {
      ConsumedLater(tokens, later, r.rest);
    }
  }

  /** An unknown switch failure names the matched prefix of the token
      consumed last, and no declared option has that switch. */
  lemma {:induction false} ScanUnrecognisedToken(options: seq<OptionDecl>, attributes: map<string, Value>, tokens: seq<string>)
    ensures var r := Scan(options, attributes, tokens);
      r.failure.Some? && r.failure.value.Unrecognised? ==>
        |r.rest| < |tokens| &&
        Classify(Consumed(tokens, r.rest)) == Switch(r.failure.value.key) &&
        FindOption(options, r.failure.value.key).None?
    decreases |tokens|, 1
  {
    if tokens != [] && Classify(tokens[0]).Switch? && FindOption(options, Classify(tokens[0]).key).Some? {
      var o := FindOption(options, Classify(tokens[0]).key).value;
      if o.flag {
        UnrecognisedAfter(options, attributes[o.attribute := True], tokens, tokens[1..]);
      } else if |tokens| > 1 {
        UnrecognisedAfter(options, attributes[o.attribute := Str(tokens[1])], tokens, tokens[2..]);
      }
    } else if tokens != [] {
      assert Consumed(tokens, tokens[1..]) == tokens[0];
    }
  }

  /** ScanUnrecognisedToken carried from a suffix `later` to the whole input. */
  lemma {:induction false} UnrecognisedAfter(options: seq<OptionDecl>, attributes: map<string, Value>, tokens: seq<string>, later: seq<string>)
    requires |later| < |tokens| && later == tokens[|tokens| - |later|..]
    ensures var r := Scan(options, attributes, later);
      r.failure.Some? && r.failure.value.Unrecognised? ==>
        |r.rest| < |tokens| &&
        Classify(Consumed(tokens, r.rest)) == Switch(r.failure.value.key) &&
        FindOption(options, r.failure.value.key).None?
    decreases |later|, 2
  {
    ScanSuffix(options, attributes, later);
    ScanUnrecognisedToken(options, attributes, later);
    var r := Scan(options, attributes, later);
    if |r.rest| < |later| {
      ConsumedLater(tokens, later, r.rest);
    }
  }

  /** A malformed-token failure names the whole token consumed last. */
  lemma {:induction false} ScanMalformedToken(options: seq<OptionDecl>, attributes: map<string, Value>, tokens: seq<string>)
    ensures var r := Scan(options, attributes, tokens);
      r.failure.Some? && r.failure.value.CantHandle? ==>
        |r.rest| < |tokens| &&
        r.failure.value.token == Consumed(tokens, r.rest) &&
        Classify(r.failure.value.token).Malformed?
    decreases |tokens|, 1
  {
    if tokens != [] && Classify(tokens[0]).Switch? && FindOption(options, Classify(tokens[0]).key).Some? {
      var o := FindOption(options, Classify(tokens[0]).key).value;
      if o.flag {
        MalformedAfter(options, attributes[o.attribute := True], tokens, tokens[1..]);
      } else if |tokens| > 1 {
        MalformedAfter(options, attributes[o.attribute := Str(tokens[1])], tokens, tokens[2..]);
      }
    } else if tokens != [] {
      assert Consumed(tokens, tokens[1..]) == tokens[0];
    }
  }

  /** ScanMalformedToken carried from a suffix `later` to the whole input. */
  lemma {:induction false} MalformedAfter(options: seq<OptionDecl>, attributes: map<string, Value>, tokens: seq<string>, later: seq<string>)
    requires |later| < |tokens| && later == tokens[|tokens| - |later|..]
    ensures var r := Scan(options, attributes, later);
      r.failure.Some? && r.failure.value.CantHandle? ==>
        |r.rest| < |tokens| &&
        r.failure.value.token == Consumed(tokens, r.rest) &&
        Classify(r.failure.value.token).Malformed?
    decreases |later|, 2
  {
    ScanSuffix(options, attributes, later);
    ScanMalformedToken(options, attributes, later);
    var r := Scan(options, attributes, later);
    if |r.rest| < |later| {
      ConsumedLater(tokens, later, r.rest);
    }
  }

  /** Only attributes of declared options are written, none is removed, and
      every other attribute keeps its value. */
  lemma {:induction false} ScanWrites(options: seq<OptionDecl>, attributes: map<string, Value>, tokens: seq<string>)
    ensures var r := Scan(options, attributes, tokens);
      && attributes.Keys <= r.attributes.Keys <= attributes.Keys + Attributes(options)
      && forall k :: k in attributes && k !in Attributes(options) ==> r.attributes[k] == attributes[k]
    decreases |tokens|
  {
    if tokens != [] && Classify(tokens[0]).Switch? {
      var key := Classify(tokens[0]).key;
      var found := FindOption(options, key);
      if found.Some? {
        var o := found.value;
        assert o.attribute in Attributes(options);
        if o.flag {
          ScanWrites(options, attributes[o.attribute := True], tokens[1..]);
        } else if |tokens| == 1 {
          ScanWrites(options, attributes[o.attribute := Nil], []);
        } else {
          ScanWrites(options, attributes[o.attribute := Str(tokens[1])], tokens[2..]);
        }
      }
    }
  }

  /** Input that is empty or starts with a non-dash token is left whole as
      the residue and no attribute is written. */
  lemma ScanPositional(options: seq<OptionDecl>, attributes: map<string, Value>, tokens: seq<string>)
    requires tokens == [] || !StartsWithDash(tokens[0])
    ensures Scan(options, attributes, tokens) == Outcome(attributes, tokens, None)
  {
  }

  /** A standalone `--` is dropped and ends scanning: everything after it is
      residue, even tokens that look like switches. */
  lemma ScanTerminator(options: seq<OptionDecl>, attributes: map<string, Value>, rest: seq<string>)
    ensures Scan(options, attributes, ["--"] + rest) == Outcome(attributes, rest, None)
  {
    assert (["--"] + rest)[1..] == rest;
  }

  /** A flag writes `true` and consumes only its own token. */
  lemma ScanFlag(options: seq<OptionDecl>, attributes: map<string, Value>, t: string, rest: seq<string>)
    requires Classify(t).Switch?
    requires FindOption(options, Classify(t).key).Some? && FindOption(options, Classify(t).key).value.flag
    ensures var o := FindOption(options, Classify(t).key).value;
      Scan(options, attributes, [t] + rest) == Scan(options, attributes[o.attribute := True], rest)
  {
    assert ([t] + rest)[1..] == rest;
  }

  /** A value option consumes exactly the next token as its value, whatever
      that token looks like. */
  lemma ScanValue(options: seq<OptionDecl>, attributes: map<string, Value>, t: string, v: string, rest: seq<string>)
    requires Classify(t).Switch?
    requires FindOption(options, Classify(t).key).Some? && !FindOption(options, Classify(t).key).value.flag
    ensures var o := FindOption(options, Classify(t).key).value;
      Scan(options, attributes, [t, v] + rest) == Scan(options, attributes[o.attribute := Str(v)], rest)
  {
    assert ([t, v] + rest)[2..] == rest;
  }

  /** A value option at the very end writes `nil` and raises nothing. */
  lemma ScanValueMissing(options: seq<OptionDecl>, attributes: map<string, Value>, t: string)
    requires Classify(t).Switch?
    requires FindOption(options, Classify(t).key).Some? && !FindOption(options, Classify(t).key).value.flag
    ensures var o := FindOption(options, Classify(t).key).value;
      Scan(options, attributes, [t]) == Outcome(attributes[o.attribute := Nil], [], None)
  {
  }

  /** An unknown well-formed switch fails with its matched prefix and writes
      nothing more. */
  lemma ScanUnknown(options: seq<OptionDecl>, attributes: map<string, Value>, t: string, rest: seq<string>)
    requires Classify(t).Switch? && FindOption(options, Classify(t).key).None?
    ensures Scan(options, attributes, [t] + rest) == Outcome(attributes, rest, Some(Unrecognised(Classify(t).key)))
  {
    assert ([t] + rest)[1..] == rest;
  }

  /** A dash token of neither shape fails with the whole token. */
  lemma ScanMalformed(options: seq<OptionDecl>, attributes: map<string, Value>, t: string, rest: seq<string>)
    requires Classify(t).Malformed?
    ensures Scan(options, attributes, [t] + rest) == Outcome(attributes, rest, Some(CantHandle(t)))
  {
    assert ([t] + rest)[1..] == rest;
  }

  /** One value option given on the command line: a switch and its value. */
  datatype Setting = Setting(switch: string, value: string)

  /** The settings are all well-formed switches of declared value options. */
  predicate ValueSettings(options: seq<OptionDecl>, settings: seq<Setting>) {
    forall i :: 0 <= i < |settings| ==>
      IsSwitchSpelling(settings[i].switch) &&
      FindOption(options, settings[i].switch).Some? &&
      !FindOption(options, settings[i].switch).value.flag
  }

  /** `[switch1, value1, switch2, value2, ...]` */
  function SettingTokens(settings: seq<Setting>): seq<string>
    decreases |settings|
  {
    if settings == [] then [] else [settings[0].switch, settings[0].value] + SettingTokens(settings[1..])
  }

  /** The attributes after writing each setting in turn. */
  function Assign(options: seq<OptionDecl>, attributes: map<string, Value>, settings: seq<Setting>): map<string, Value>
    decreases |settings|
  {
    if settings == [] then attributes
    else
      var s := settings[0];
      match FindOption(options, s.switch)
      case None => Assign(options, attributes, settings[1..])
      case Some(o) => Assign(options, attributes[o.attribute := Str(s.value)], settings[1..])
  }

  /** Writes happen in the order the settings are given: the last one given
      for an attribute is the one that stays. */
  lemma {:induction false} AssignLast(options: seq<OptionDecl>, attributes: map<string, Value>, settings: seq<Setting>, s: Setting)
    requires FindOption(options, s.switch).Some?
    ensures Assign(options, attributes, settings + [s]) ==
            Assign(options, attributes, settings)[FindOption(options, s.switch).value.attribute := Str(s.value)]
    decreases |settings|
  {
    if settings == [] {
      assert ([] + [s])[1..] == [];
    } else {
      assert (settings + [s])[1..] == settings[1..] + [s];
      var o := FindOption(options, settings[0].switch);
      if o.Some? {
        AssignLast(options, attributes[o.value.attribute := Str(settings[0].value)], settings[1..], s);
      } else {
        AssignLast(options, attributes, settings[1..], s);
      }
    }
  }

  /** Scanning settings and then any tokens is scanning those tokens from
      the attributes the settings leave behind. */
  lemma {:induction false} ScanSettingsThen(options: seq<OptionDecl>, attributes: map<string, Value>, settings: seq<Setting>, tail: seq<string>)
    requires ValueSettings(options, settings)
    ensures Scan(options, attributes, SettingTokens(settings) + tail) == Scan(options, Assign(options, attributes, settings), tail)
    decreases |settings|
  {
    if settings != [] {
      var s := settings[0];
      var o := FindOption(options, s.switch).value;
      var after := SettingTokens(settings[1..]) + tail;
      assert SettingTokens(settings) + tail == [s.switch, s.value] + after;
      SwitchSpellingClassifies(s.switch);
      ScanValue(options, attributes, s.switch, s.value, after);
      assert ValueSettings(options, settings[1..]) by {
        forall i | 0 <= i < |settings| - 1
          ensures settings[1..][i] == settings[i + 1]
        {
        }
      }
      ScanSettingsThen(options, attributes[o.attribute := Str(s.value)], settings[1..], tail);
    } else {
      assert SettingTokens(settings) + tail == tail;
    }
  }

  /** Round trip: value options given as `[switch, value, ...]` followed by
      positional tokens set exactly the attributes Assign describes and leave
      the positional tokens as the residue. */
  lemma ScanSettings(options: seq<OptionDecl>, attributes: map<string, Value>, settings: seq<Setting>, args: seq<string>)
    requires ValueSettings(options, settings)
    requires args == [] || !StartsWithDash(args[0])
    ensures Scan(options, attributes, SettingTokens(settings) + args) == Outcome(Assign(options, attributes, settings), args, None)
  {
    ScanSettingsThen(options, attributes, settings, args);
  }

  /** An unknown switch after some settings fails, and the settings already
      written stay written: nothing is rolled back. */
  lemma ScanUnknownAfterSettings(options: seq<OptionDecl>, attributes: map<string, Value>, settings: seq<Setting>, bad: string, rest: seq<string>)
    requires ValueSettings(options, settings)
    requires IsSwitchSpelling(bad) && FindOption(options, bad).None?
    ensures Scan(options, attributes, SettingTokens(settings) + [bad] + rest) ==
            Outcome(Assign(options, attributes, settings), rest, Some(Unrecognised(bad)))
  {
    SwitchSpellingClassifies(bad);
    assert SettingTokens(settings) + [bad] + rest == SettingTokens(settings) + ([bad] + rest);
    ScanSettingsThen(options, attributes, settings, [bad] + rest);
    ScanUnknown(options, Assign(options, attributes, settings), bad, rest);
  }
}
