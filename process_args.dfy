/**
 * AbstractProcessArgs: the arguments of a process, filled in from a map of
 * parameter values or parsed from a command-line string. Filling them in
 * validates each value and hands its trimmed text to a setter hook that the
 * concrete process defines; the model records the hook calls in order.
 */
module ProcessArguments {
  import opened Wrappers
  import opened Faults
  import opened JavaText
  import opened ProcessFailure
  import opened Parameters

  /** The four groups of a parameter map, in the order they are applied. */
  datatype Slot = OptionSlot | ArgSlot | StdOutSlot | StdErrSlot

  function Rank(s: Slot): nat
  {
    match s
    case OptionSlot => 0
    case ArgSlot => 1
    case StdOutSlot => 2
    case StdErrSlot => 3
  }

  /** A map entry: a parameter and its value (None for null). */
  datatype Entry = Entry(key: Parameter, value: Option<string>)

  /** `ParamMap`: the option entries, the argument entries and the two optional redirections. */
  datatype ParamMap = ParamMap(options: seq<Entry>, args: seq<Entry>, stdout: Option<Entry>, stderr: Option<Entry>)

  /** An entry waiting to be applied, with the setter hook it goes to. */
  datatype Planned = Planned(slot: Slot, entry: Entry)

  /** One call of a setter hook: which one, with which parameter and which value. */
  datatype Applied = Applied(slot: Slot, param: Parameter, value: string)

  /** The entries of one group, all bound for the same hook. */
  function Steps(slot: Slot, entries: seq<Entry>): (ps: seq<Planned>)
    ensures |ps| == |entries|
    ensures forall i :: 0 <= i < |entries| ==> ps[i] == Planned(slot, entries[i])
  {
    seq(|entries|, i requires 0 <= i < |entries| => Planned(slot, entries[i]))
  }

  /** A redirection: applied when it is present, skipped when it is null. */
  function Redirect(slot: Slot, e: Option<Entry>): (ps: seq<Planned>)
    ensures |ps| == (if e.None? then 0 else 1)
    ensures e.Some? ==> ps == [Planned(slot, e.value)]
  {
    if e.None? then [] else [Planned(slot, e.value)]
  }

  /** Every entry of a map, in the order `setFromArgMap` handles them: options, arguments, standard output, standard error. */
  function Plan(pvp: ParamMap): (ps: seq<Planned>)
    ensures |ps| == |pvp.options| + |pvp.args| + |Redirect(StdOutSlot, pvp.stdout)| + |Redirect(StdErrSlot, pvp.stderr)|
  {
    Steps(OptionSlot, pvp.options) + Steps(ArgSlot, pvp.args) + Redirect(StdOutSlot, pvp.stdout)
    + Redirect(StdErrSlot, pvp.stderr)
  }

  /** The exception for an invalid value: building its message asks the parameter for its identifier, which may itself throw. */
  function Invalid(p: Parameter): (t: Thrown)
    ensures t == BadParameter || t == Runtime(NullPointer)
    ensures t == Runtime(NullPointer) <==> p.paramType.None?
  {
    var id := GetIdentifier(p);
    if id.Err? then id.error else BadParameter
  }

  /**
   * One entry: an invalid value throws before its hook runs; a valid null
   * value is a NullPointerException when it is trimmed; otherwise the hook
   * gets the trimmed value. `validate` is the parameter's
   * `validateParameterValue`.
   */
  function Step(p: Planned, validate: (Parameter, Option<string>) -> bool): (r: Result<Applied, Thrown>)
    ensures r.Ok? <==> validate(p.entry.key, p.entry.value) && p.entry.value.Some?
    ensures r.Ok? ==> r.value == Applied(p.slot, p.entry.key, Trim(p.entry.value.value))
    ensures !validate(p.entry.key, p.entry.value) ==> r == Err(Invalid(p.entry.key))
  {
    if !validate(p.entry.key, p.entry.value) then Err(Invalid(p.entry.key))
    else if p.entry.value.None? then Err(Runtime(NullPointer))
    else Ok(Applied(p.slot, p.entry.key, Trim(p.entry.value.value)))
  }

  /** What applying a list of entries did: the hook calls made, and the exception that stopped it, if any. */
  datatype Outcome = Outcome(applied: seq<Applied>, failure: Option<Thrown>)

  /** The result of every entry taken on its own. */
  function Results(ps: seq<Planned>, validate: (Parameter, Option<string>) -> bool): (rs: seq<Result<Applied, Thrown>>)
    ensures |rs| == |ps|
    ensures forall i :: 0 <= i < |ps| ==> rs[i] == Step(ps[i], validate)
  {
    seq(|ps|, i requires 0 <= i < |ps| => Step(ps[i], validate))
  }

  /** Taking results in order until the first failure: no later result is looked at. */
  function Stop(rs: seq<Result<Applied, Thrown>>): Outcome
    decreases |rs|
  {
    if |rs| == 0 then Outcome([], None)
    else
      var before := Stop(rs[..|rs| - 1]);
      if before.failure.Some? then before
      else
        match rs[|rs| - 1]
        case Err(e) => Outcome(before.applied, Some(e))
        case Ok(a) => Outcome(before.applied + [a], None)
  }

  /** Applying entries one by one until one fails. */
  function Run(ps: seq<Planned>, validate: (Parameter, Option<string>) -> bool): Outcome
  {
    Stop(Results(ps, validate))
  }

  /** The results taken are a prefix of the list, ended by the first failure if there is one. */
  lemma {:induction false} StopIsPrefix(rs: seq<Result<Applied, Thrown>>)
    ensures var o := Stop(rs);
      |o.applied| <= |rs|
      && (forall i :: 0 <= i < |o.applied| ==> rs[i] == Ok(o.applied[i]))
      && (o.failure.None? <==> |o.applied| == |rs|)
      && (o.failure.Some? ==> rs[|o.applied|] == Err(o.failure.value))
    decreases |rs|
  {
    if |rs| > 0 {
      var init := rs[..|rs| - 1];
      StopIsPrefix(init);
      var before := Stop(init);
      forall i | 0 <= i < |before.applied|
        ensures rs[i] == init[i]
      {
      }
    }
  }

  /** One outcome followed by another: the second only counts when the first went through. */
  function Then(first: Outcome, second: Outcome): Outcome
  {
    if first.failure.Some? then first else Outcome(first.applied + second.applied, second.failure)
  }

  /** Taking two lists in turn: the second starts only when the first went through. */
  lemma {:induction false} StopAppend(xs: seq<Result<Applied, Thrown>>, ys: seq<Result<Applied, Thrown>>)
    ensures Stop(xs + ys) == Then(Stop(xs), Stop(ys))
    decreases |ys|
  {
    if |ys| == 0 {
      assert xs + ys == xs;
    } else {
      var zs := xs + ys;
      var init := ys[..|ys| - 1];
      assert zs[..|zs| - 1] == xs + init;
      assert zs[|zs| - 1] == ys[|ys| - 1];
      StopAppend(xs, init);
      var x, y := Stop(xs), Stop(init);
      if x.failure.None? && y.failure.None? && ys[|ys| - 1].Ok? {
        var a := ys[|ys| - 1].value;
        assert x.applied + y.applied + [a] == x.applied + (y.applied + [a]);
      }
    }
  }

  /** One more result after a clean prefix: it is applied, or the fold stops with its error. */
  lemma StopStep(rs: seq<Result<Applied, Thrown>>, i: nat, done: seq<Applied>)
    requires i < |rs| && Stop(rs[..i]) == Outcome(done, None)
    ensures rs[i].Ok? ==> Stop(rs[..i + 1]) == Outcome(done + [rs[i].value], None)
    ensures rs[i].Err? ==> Stop(rs) == Outcome(done, Some(rs[i].error))
  {
    StopSnoc(rs, i, done);
    if rs[i].Err? {
      StopFailed(rs, i + 1);
    }
  }

  lemma StopSnoc(rs: seq<Result<Applied, Thrown>>, i: nat, done: seq<Applied>)
    requires i < |rs| && Stop(rs[..i]) == Outcome(done, None)
    ensures Stop(rs[..i + 1]) == match rs[i]
      case Ok(a) => Outcome(done + [a], None)
      case Err(e) => Outcome(done, Some(e))
  {
    var p := rs[..i + 1];
    assert p[..|p| - 1] == rs[..i];
    assert p[|p| - 1] == rs[i];
  }

  lemma StopSingle(x: Result<Applied, Thrown>)
    ensures Stop([x]) == match x
      case Ok(a) => Outcome([a], None)
      case Err(e) => Outcome([], Some(e))
  {
    assert [x][..0] == [];
  }

  /** Once a prefix has failed, the rest of the results change nothing. */
  lemma StopFailed(rs: seq<Result<Applied, Thrown>>, j: nat)
    requires j <= |rs| && Stop(rs[..j]).failure.Some?
    ensures Stop(rs) == Stop(rs[..j])
  {
    assert rs == rs[..j] + rs[j..];
    StopAppend(rs[..j], rs[j..]);
  }

  /**
   * The hooks are called for a prefix of the entries, each with its
   * entry's trimmed value; the run stops only at the first entry that fails,
   * with that entry's exception, and otherwise goes through every entry.
   */
  lemma RunIsPrefix(ps: seq<Planned>, validate: (Parameter, Option<string>) -> bool)
    ensures var o := Run(ps, validate);
      |o.applied| <= |ps|
      && (forall i :: 0 <= i < |o.applied| ==> Step(ps[i], validate) == Ok(o.applied[i]))
      && (o.failure.None? <==> |o.applied| == |ps|)
      && (o.failure.Some? ==> Step(ps[|o.applied|], validate) == Err(o.failure.value))
  {
    StopIsPrefix(Results(ps, validate));
  }

  /** Applying two lists in turn: the second starts only when the first went through. */
  lemma RunAppend(xs: seq<Planned>, ys: seq<Planned>, validate: (Parameter, Option<string>) -> bool)
    ensures Run(xs + ys, validate) == Then(Run(xs, validate), Run(ys, validate))
  {
    assert Results(xs + ys, validate) == Results(xs, validate) + Results(ys, validate);
    StopAppend(Results(xs, validate), Results(ys, validate));
  }

  /** A map is applied group by group, each group only when the ones before it went through. */
  lemma RunPlan(pvp: ParamMap, validate: (Parameter, Option<string>) -> bool)
    ensures Run(Plan(pvp), validate)
         == Then(Then(Then(Run(Steps(OptionSlot, pvp.options), validate), Run(Steps(ArgSlot, pvp.args), validate)),
                      Run(Redirect(StdOutSlot, pvp.stdout), validate)),
                 Run(Redirect(StdErrSlot, pvp.stderr), validate))
  {
    var os, ars := Steps(OptionSlot, pvp.options), Steps(ArgSlot, pvp.args);
    var out, err := Redirect(StdOutSlot, pvp.stdout), Redirect(StdErrSlot, pvp.stderr);
    RunAppend(os, ars, validate);
    RunAppend(os + ars, out, validate);
    RunAppend(os + ars + out, err, validate);
  }

  /** The entries of a map are planned group by group: options before arguments before the two redirections. */
  lemma PlanIsOrdered(pvp: ParamMap)
    ensures var ps := Plan(pvp);
      forall i, j :: 0 <= i < j < |ps| ==> Rank(ps[i].slot) <= Rank(ps[j].slot)
  {
    var ps := Plan(pvp);
    var a, b := |pvp.options|, |pvp.options| + |pvp.args|;
    var c := b + |Redirect(StdOutSlot, pvp.stdout)|;
    forall i | 0 <= i < |ps|
      ensures Rank(ps[i].slot) == (if i < a then 0 else if i < b then 1 else if i < c then 2 else 3)
    {
      if i < a {
        assert ps[i] == Steps(OptionSlot, pvp.options)[i];
      } else if i < b {
        assert ps[i] == Steps(ArgSlot, pvp.args)[i - a];
      } else if i < c {
        assert ps[i] == Redirect(StdOutSlot, pvp.stdout)[i - b];
      } else {
        assert ps[i] == Redirect(StdErrSlot, pvp.stderr)[i - c];
      }
    }
  }

  /**
   * What `setFromArgMap` does, whatever the validator: the hooks it calls
   * go options first, then arguments, then the redirections, each hook
   * gets the trimmed value of its entry, and it stops at the first entry
   * that fails.
   */
  lemma ArgMapOrder(pvp: ParamMap, validate: (Parameter, Option<string>) -> bool)
    ensures var o := Run(Plan(pvp), validate);
      |o.applied| <= |Plan(pvp)|
      && (forall i, j :: 0 <= i < j < |o.applied| ==> Rank(o.applied[i].slot) <= Rank(o.applied[j].slot))
      && (forall i :: 0 <= i < |o.applied| ==>
            o.applied[i].param == Plan(pvp)[i].entry.key && Plan(pvp)[i].entry.value.Some?
            && o.applied[i].value == Trim(Plan(pvp)[i].entry.value.value))
  {
    RunIsPrefix(Plan(pvp), validate);
    PlanIsOrdered(pvp);
  }

  /**
   * The pre-split step of `parse(args)`: nothing for a null or blank
   * string; otherwise `"exe " + args.trim()` split at single spaces.
   */
  function PreSplit(args: Option<string>): Option<seq<string>>
  {
    if args.None? || Trim(args.value) == "" then None
    else Some(Split("exe " + Trim(args.value), ' '))
  }

  /** Cutting at a character and gluing back with it gives the string back, and no piece holds the character. */
  lemma {:induction false} PiecesJoin(s: string, c: char)
    ensures Join([c], Pieces(s, {c})) == s
    ensures forall i :: 0 <= i < |Pieces(s, {c})| ==> !HasAny(Pieces(s, {c})[i], {c})
    decreases |s|
  {
    if |s| > 0 {
      PiecesJoin(s[1..], c);
      var rest := Pieces(s[1..], {c});
      if s[0] == c {
        JoinCons([c], "", rest);
      } else {
        JoinPrepend([c], s[0], rest);
        assert !HasAny([s[0]] + rest[0], {c}) by {
          forall k | 0 <= k < |[s[0]] + rest[0]| ensures ([s[0]] + rest[0])[k] != c {
            if k > 0 {
              assert ([s[0]] + rest[0])[k] == rest[0][k - 1];
            }
          }
        }
        var ps := Pieces(s, {c});
        forall i | 1 <= i < |ps| ensures !HasAny(ps[i], {c}) {
          assert ps[i] == rest[i];
        }
      }
      assert s == [s[0]] + s[1..];
    }
  }

  /** A string that does not end with the character has a non-empty last piece. */
  lemma {:induction false} PiecesLastNonEmpty(s: string, c: char)
    requires |s| > 0 && s[|s| - 1] != c
    ensures var ps := Pieces(s, {c}); ps[|ps| - 1] != ""
    decreases |s|
  {
    if |s| > 1 {
      PiecesLastNonEmpty(s[1..], c);
    }
  }

  /**
   * `parse` of a non-blank string splits into the word `exe` followed by the
   * space-free words of the trimmed string, which glued back with single
   * spaces give the trimmed string.
   */
  lemma PreSplitWords(args: string)
    requires Trim(args) != ""
    ensures var r := PreSplit(Some(args)).value;
      |r| >= 2 && r[0] == "exe"
      && Join(" ", r[1..]) == Trim(args)
      && forall i :: 1 <= i < |r| ==> !HasAny(r[i], {' '})
  {
    var t := Trim(args);
    var s := "exe " + t;
    assert s[..3] == "exe" && s[4..] == t;
    assert s[|s| - 1] == t[|t| - 1] != ' ';
    assert !HasAny("exe", {' '});
    SplitSeparated(s, ' ', 3);
    PiecesJoin(t, ' ');
    var ps := ["exe"] + Pieces(t, {' '});
    assert ps[1..] == Pieces(t, {' '});
  }

  /**
   * A string whose first `c` is at `k` and whose last character is not `c`
   * splits into what comes before `k` and the pieces of what comes after it.
   */
  lemma SplitSeparated(s: string, c: char, k: nat)
    requires k < |s| && s[k] == c && !HasAny(s[..k], {c}) && s[|s| - 1] != c
    ensures Split(s, c) == [s[..k]] + Pieces(s[k + 1..], {c})
  {
    assert HasAny(s, {c});
    PiecesAt(s, c, k);
    PiecesLastNonEmpty(s, c);
    SplitUntrimmed(s, c, [s[..k]] + Pieces(s[k + 1..], {c}));
  }

  /** The pieces of `s` around its first separator at `k`. */
  lemma PiecesAt(s: string, c: char, k: nat)
    requires k < |s| && s[k] == c && !HasAny(s[..k], {c})
    ensures Pieces(s, {c}) == [s[..k]] + Pieces(s[k + 1..], {c})
  {
    PiecesOfSeparated(s[..k], c, s[k + 1..], {c});
    assert s[..k] + [c] + s[k + 1..] == s;
  }

  /** A string holding the character whose last piece is non-empty splits into exactly its pieces. */
  lemma SplitUntrimmed(s: string, c: char, ps: seq<string>)
    requires HasAny(s, {c}) && Pieces(s, {c}) == ps && ps[|ps| - 1] != ""
    ensures Split(s, c) == ps
  {
    DropNoTrailing(ps);
  }

  lemma DropNoTrailing(xs: seq<string>)
    requires |xs| > 0 && xs[|xs| - 1] != ""
    ensures DropTrailingEmpty(xs) == xs
  {
  }

  class ProcessArgs {
    /** The argument string given directly, not checked against the parameters. */
    var uncheckedArgs: Option<string>
    /** The setter hooks called so far, in order. */
    var applied: seq<Applied>

    /** `AbstractProcessArgs(params)`: no unchecked args yet. */
    constructor ()
      ensures uncheckedArgs.None? && applied == []
    {
      uncheckedArgs := None;
      applied := [];
    }

    function GetUncheckedArgs(): Option<string>
      reads this
    {
      uncheckedArgs
    }

    method SetUncheckedArgs(a: Option<string>)
      modifies this
      ensures uncheckedArgs == a && applied == old(applied)
    {
      uncheckedArgs := a;
    }

    /** A setter hook (`setOptionFromMapEntry`, `setArgFromMapEntry` or a redirection's). */
    method Hook(a: Applied)
      modifies this
      ensures applied == old(applied) + [a] && uncheckedArgs == old(uncheckedArgs)
    {
      applied := applied + [a];
    }

    /** One of the two loops of `setFromArgMap`: every entry of a group, in order, until one fails. */
    method ApplyEntries(slot: Slot, entries: seq<Entry>, validate: (Parameter, Option<string>) -> bool)
      returns (r: Result<(), Thrown>)
      modifies this
      ensures applied == old(applied) + Run(Steps(slot, entries), validate).applied
      ensures r.Err? <==> Run(Steps(slot, entries), validate).failure.Some?
      ensures r.Err? ==> r.error == Run(Steps(slot, entries), validate).failure.value
      ensures uncheckedArgs == old(uncheckedArgs)
    {
      ghost var rs := Results(Steps(slot, entries), validate);
      ghost var done: seq<Applied> := [];
      for i := 0 to |entries|
        invariant Stop(rs[..i]) == Outcome(done, None)
        invariant applied == old(applied) + done
        invariant uncheckedArgs == old(uncheckedArgs)
      {
        var step := Step(Planned(slot, entries[i]), validate);
        assert step == rs[i];
        StopStep(rs, i, done);
        if step.Err? {
          return Err(step.error);
        }
        Hook(step.value);
        done := done + [step.value];
      }
      assert rs[..|entries|] == rs;
      return Ok(());
    }

    /** One of the two redirection blocks of `setFromArgMap`: nothing for a null redirection. */
    method ApplyRedirect(slot: Slot, e: Option<Entry>, validate: (Parameter, Option<string>) -> bool)
      returns (r: Result<(), Thrown>)
      modifies this
      ensures applied == old(applied) + Run(Redirect(slot, e), validate).applied
      ensures r.Err? <==> Run(Redirect(slot, e), validate).failure.Some?
      ensures r.Err? ==> r.error == Run(Redirect(slot, e), validate).failure.value
      ensures uncheckedArgs == old(uncheckedArgs)
    {
      ghost var rs := Results(Redirect(slot, e), validate);
      if e.Some? {
        var step := Step(Planned(slot, e.value), validate);
        assert rs == [step];
        StopSingle(step);
        if step.Err? {
          return Err(step.error);
        }
        Hook(step.value);
      } else {
        assert rs == [];
      }
      return Ok(());
    }

    /**
     * `setFromArgMap(map)`: the options, then the arguments, then the
     * standard output and standard error redirections; the first failure
     * is thrown, and the hooks called before it stay called.
     */
    method SetFromArgMap(pvp: ParamMap, validate: (Parameter, Option<string>) -> bool) returns (r: Result<(), Thrown>)
      modifies this
      ensures applied == old(applied) + Run(Plan(pvp), validate).applied
      ensures r.Err? <==> Run(Plan(pvp), validate).failure.Some?
      ensures r.Err? ==> r.error == Run(Plan(pvp), validate).failure.value
      ensures uncheckedArgs == old(uncheckedArgs)
    {
      RunPlan(pvp, validate);
      ghost var start := applied;
      ghost var done := Run(Steps(OptionSlot, pvp.options), validate);
      r := ApplyEntries(OptionSlot, pvp.options, validate);
      if r.Err? {
        return;
      }
      ghost var next := Run(Steps(ArgSlot, pvp.args), validate);
      r := ApplyEntries(ArgSlot, pvp.args, validate);
      Regroup(start, done.applied, next.applied);
      done := Then(done, next);
      if r.Err? {
        return;
      }
      next := Run(Redirect(StdOutSlot, pvp.stdout), validate);
      r := ApplyRedirect(StdOutSlot, pvp.stdout, validate);
      Regroup(start, done.applied, next.applied);
      done := Then(done, next);
      if r.Err? {
        return;
      }
      next := Run(Redirect(StdErrSlot, pvp.stderr), validate);
      r := ApplyRedirect(StdErrSlot, pvp.stderr, validate);
      Regroup(start, done.applied, next.applied);
      done := Then(done, next);
    }
  }

  /** Concatenation regrouped, named so that the method above can use it at one place at a time. */
  lemma Regroup(a: seq<Applied>, b: seq<Applied>, c: seq<Applied>)
    ensures a + b + c == a + (b + c)
  {
  }
}
