/** How `Command#parse` classifies the token at the front of the list
    (lib/clop/command.rb:16-28): the loop test `/^-/`, the terminator
    `/\A--\z/`, the switch shape `/^(--\w+|-\w)/` and everything else. */
module Switches {
  import opened Text

  datatype Kind =
    | Positional          // does not start with `-`: scanning stops here
    | Terminator          // exactly `--`: dropped, scanning stops after it
    | Switch(key: string) // the matched `--\w+` or `-\w` prefix, used as lookup key
    | Malformed           // starts with `-` but has neither shape

  predicate StartsWithDash(t: string) {
    |t| > 0 && t[0] == '-'
  }

  /** The first alternative, `--\w+`, matches at the start of `t`. */
  predicate HasLongSwitch(t: string) {
    |t| >= 3 && t[0] == '-' && t[1] == '-' && IsWordChar(t[2])
  }

  /** The second alternative, `-\w`, matches at the start of `t`. */
  predicate HasShortSwitch(t: string) {
    |t| >= 2 && t[0] == '-' && IsWordChar(t[1])
  }

  /** `k` as a whole has the switch shape: `-` and one word character, or
      `--` and one or more word characters. */
  predicate IsSwitchSpelling(k: string) {
    || (|k| == 2 && k[0] == '-' && IsWordChar(k[1]))
    || (|k| >= 3 && k[0] == '-' && k[1] == '-' && forall i :: 2 <= i < |k| ==> IsWordChar(k[i]))
  }

  function Classify(t: string): (r: Kind)
    ensures r.Positional? <==> !StartsWithDash(t)
    ensures r.Terminator? <==> t == "--"
    ensures r.Malformed? <==> StartsWithDash(t) && t != "--" && !HasLongSwitch(t) && !HasShortSwitch(t)
    ensures r.Switch? ==> IsSwitchSpelling(r.key) && r.key <= t
    // the long alternative is tried first and is greedy
    ensures r.Switch? && HasLongSwitch(t) ==> |r.key| >= 3 && (|r.key| == |t| || !IsWordChar(t[|r.key|]))
    ensures r.Switch? && !HasLongSwitch(t) ==> r.key == t[..2]
  {
    if !StartsWithDash(t) then Positional
    else if t == "--" then Terminator
    else if HasLongSwitch(t) then
      var w := WordRun(t[2..]);
      assert t[..2] + t[2..] == t;
      Switch("--" + w)
    else if HasShortSwitch(t) then Switch(t[..2])
    else Malformed
  }

  /** A token that has the switch shape as a whole is looked up as itself. */
  lemma SwitchSpellingClassifies(k: string)
    requires IsSwitchSpelling(k)
    ensures Classify(k) == Switch(k)
  {
    if |k| >= 3 {
      WordRunUnique(k[2..], k[2..]);
      assert "--" + k[2..] == k;
    }
  }

  /** Only the matched prefix is looked up: a short switch may be followed by
      anything, a long one by anything that does not continue its word run;
      the rest of the token is ignored. */
  lemma {:induction false} SwitchPrefixLookup(k: string, rest: string)
    requires IsSwitchSpelling(k)
    requires |k| == 2 || rest == [] || !IsWordChar(rest[0])
    ensures Classify(k + rest) == Switch(k)
  {
    var t := k + rest;
    if |k| >= 3 {
      assert t[2..] == k[2..] + rest;
      WordRunUnique(t[2..], k[2..]);
      assert "--" + k[2..] == k;
    } else {
      assert t[..2] == k;
    }
  }

  /** The tokens the source's own comments and callers distinguish. */
  lemma ClassifyExamples()
    ensures Classify("-abc") == Switch("-a")
    ensures Classify("--foo=bar") == Switch("--foo")
    ensures Classify("--") == Terminator
    ensures Classify("-") == Malformed
    ensures Classify("---x") == Malformed
    ensures Classify("-=") == Malformed
    ensures Classify("file") == Positional
    ensures Classify("") == Positional
  {
    SwitchPrefixLookup("-a", "bc");
    assert "-a" + "bc" == "-abc";
    SwitchPrefixLookup("--foo", "=bar");
    assert "--foo" + "=bar" == "--foo=bar";
  }
}
