/** What becomes of settled branches: which failure is reported, whom a join admits, and
    whose write a reducer takes. */
module JoinLaws {
  import opened Values
  import opened Ordering
  import opened Protocol
  import opened Reducers
  import opened Topology
  import opened Engine
  import opened Grammar

  // ----- which failure is reported -----

  /** `i` is the first branch whose outcome is of this kind. */
  ghost predicate FirstAt(settled: seq<Settlement>, kind: Settlement -> bool, i: nat) {
    i < |settled| && kind(settled[i]) && forall j :: 0 <= j < i ==> !kind(settled[j])
  }

  predicate IsNotAdmitted(o: Settlement) { o.NotAdmitted? }
  predicate IsNotStarted(o: Settlement) { o.NotStarted? }
  predicate IsRefusedStart(o: Settlement) { o.NotStarted? && IsGateRefused(o.error) }
  predicate IsBranchStopped(o: Settlement) { o.BranchStopped? }
  predicate IsPaused(o: Settlement) { o.Failed? && IsInterrupt(o.error) }

  ghost predicate NoneAt(settled: seq<Settlement>, kind: Settlement -> bool) {
    forall o <- settled :: !kind(o)
  }

  lemma RestFirst(settled: seq<Settlement>, kind: Settlement -> bool, i: nat)
    requires FirstAt(settled, kind, i) && i > 0
    ensures FirstAt(settled[1..], kind, i - 1) && !kind(settled[0])
  {
    assert forall j :: 0 <= j < i - 1 ==> settled[1..][j] == settled[j + 1];
  }

  lemma {:induction false} FirstAdmissionError(settled: seq<Settlement>, i: nat)
    requires FirstAt(settled, IsNotAdmitted, i)
    ensures AdmissionErrors(settled) != [] && AdmissionErrors(settled)[0] == settled[i].error
  {
    if i > 0 {
      RestFirst(settled, IsNotAdmitted, i);
      FirstAdmissionError(settled[1..], i - 1);
    }
  }

  lemma {:induction false} NoAdmissionError(settled: seq<Settlement>)
    requires NoneAt(settled, IsNotAdmitted)
    ensures AdmissionErrors(settled) == []
  {
    if settled != [] {
      assert settled[0] in settled && forall o <- settled[1..] :: o in settled;
      NoAdmissionError(settled[1..]);
    }
  }

  /** The errors of failed starts are those of the branches concerned, in branch order. */
  lemma {:induction false} StartErrorsAt(settled: seq<Settlement>)
    ensures StartErrors(settled) == [] <==> NoneAt(settled, IsNotStarted)
    ensures forall e :: e in StartErrors(settled) <==> exists o <- settled :: o == NotStarted(e)
  {
    if settled != [] {
      assert settled == [settled[0]] + settled[1..];
      assert settled[0] in settled && forall o <- settled[1..] :: o in settled;
      StartErrorsAt(settled[1..]);
    }
  }

  lemma {:induction false} FirstRefusal(settled: seq<Settlement>, i: nat)
    requires FirstAt(settled, IsRefusedStart, i)
    ensures GateRefusals(StartErrors(settled)) != [] && GateRefusals(StartErrors(settled))[0] == settled[i].error
  {
    if i > 0 {
      RestFirst(settled, IsRefusedStart, i);
      FirstRefusal(settled[1..], i - 1);
      var errors, rest := StartErrors(settled), StartErrors(settled[1..]);
      assert if settled[0].NotStarted? then errors[1..] == rest else errors == rest;
    } else {
      assert StartErrors(settled)[0] == settled[0].error;
    }
  }

  lemma {:induction false} NoRefusal(settled: seq<Settlement>)
    requires NoneAt(settled, IsRefusedStart)
    ensures GateRefusals(StartErrors(settled)) == []
  {
    if settled != [] {
      assert settled[0] in settled && forall o <- settled[1..] :: o in settled;
      NoRefusal(settled[1..]);
      var errors, rest := StartErrors(settled), StartErrors(settled[1..]);
      assert if settled[0].NotStarted? then errors[1..] == rest else errors == rest;
    }
  }

  lemma {:induction false} FirstStop(settled: seq<Settlement>, i: nat)
    requires FirstAt(settled, IsBranchStopped, i)
    ensures StopReasons(settled) != [] && StopReasons(settled)[0] == settled[i].reason
  {
    if i > 0 {
      RestFirst(settled, IsBranchStopped, i);
      FirstStop(settled[1..], i - 1);
    }
  }

  lemma {:induction false} NoStop(settled: seq<Settlement>)
    requires NoneAt(settled, IsBranchStopped)
    ensures StopReasons(settled) == []
  {
    if settled != [] {
      assert settled[0] in settled && forall o <- settled[1..] :: o in settled;
      NoStop(settled[1..]);
    }
  }

  lemma {:induction false} FirstPause(settled: seq<Settlement>, i: nat)
    requires FirstAt(settled, IsPaused, i)
    ensures FirstInterrupt(settled) == i
  {
    if i > 0 {
      RestFirst(settled, IsPaused, i);
      FirstPause(settled[1..], i - 1);
    }
  }

  lemma {:induction false} NoPause(settled: seq<Settlement>)
    requires NoneAt(settled, IsPaused)
    ensures FirstInterrupt(settled) == |settled|
  {
    if settled != [] {
      assert settled[0] in settled && forall o <- settled[1..] :: o in settled;
      NoPause(settled[1..]);
    }
  }

  lemma TogetherRaised(settled: seq<Settlement>, i: nat)
    requires FirstAt(settled, IsNotStarted, i) && NoneAt(settled, IsRefusedStart)
    ensures StartErrors(settled) != [] && GateRefusals(StartErrors(settled)) == []
  {
    hide StartErrors, GateRefusals;
    StartErrorsAt(settled);
    NoRefusal(settled);
    assert settled[i] in settled;
  }

  /** Failure precedence: a failed admission outranks a failed start, that a stop, and that
      an interrupt; of each kind the first branch in canonical order is reported, except
      that a gate's refusal of a start outranks other failed starts, which are raised
      together. Without any of these the join decides. */
  lemma FailurePrecedence(ctx: Ctx, region: Region, edge: Edge, state: State, settled: seq<Settlement>, log: Log,
                          i: nat)
    requires edge.FanOut? && |settled| == |region.branches|
    ensures var r := CloseRegion(ctx, region, edge, state, settled, log);
            && (FirstAt(settled, IsNotAdmitted, i) ==> r == Raise(log, settled[i].error))
            && (NoneAt(settled, IsNotAdmitted) ==>
                  && (FirstAt(settled, IsRefusedStart, i) ==> r == Raise(log, settled[i].error))
                  && (NoneAt(settled, IsRefusedStart) && FirstAt(settled, IsNotStarted, i) ==>
                        exists errors :: r == Raise(log, StartsFailed(region.source, errors))
                                         && forall e :: e in errors <==> exists o <- settled :: o == NotStarted(e))
                  && (NoneAt(settled, IsNotStarted) ==>
                        && (FirstAt(settled, IsBranchStopped, i) ==>
                              r == Halt(log, state, region.source, region.steps, settled[i].reason))
                        && (NoneAt(settled, IsBranchStopped) ==>
                              && (FirstAt(settled, IsPaused, i) ==>
                                    r == InterruptRun(log, region.snapshot, region.branches[i], region.steps,
                                                      region.branches, settled[i].error.fault))
                              && (NoneAt(settled, IsPaused) ==>
                                    r == JoinRegion(ctx, region, edge, state, settled, log)))))
  {
    hide AdmissionErrors, StartErrors, GateRefusals, StopReasons, FirstInterrupt, Halt, InterruptRun, JoinRegion;
    if FirstAt(settled, IsNotAdmitted, i) { FirstAdmissionError(settled, i); }
    if NoneAt(settled, IsNotAdmitted) { NoAdmissionError(settled); }
    StartErrorsAt(settled);
    if NoneAt(settled, IsNotAdmitted) && NoneAt(settled, IsRefusedStart) && FirstAt(settled, IsNotStarted, i) {
      TogetherRaised(settled, i);
      assert CloseRegion(ctx, region, edge, state, settled, log)
          == Raise(log, StartsFailed(region.source, StartErrors(settled)));
    }
    if FirstAt(settled, IsRefusedStart, i) { FirstRefusal(settled, i); }
    if NoneAt(settled, IsRefusedStart) { NoRefusal(settled); }
    if FirstAt(settled, IsBranchStopped, i) { FirstStop(settled, i); }
    if NoneAt(settled, IsBranchStopped) { NoStop(settled); }
    if FirstAt(settled, IsPaused, i) { FirstPause(settled, i); }
    if NoneAt(settled, IsPaused) { NoPause(settled); }
  }

  // ----- whom a join admits -----

  lemma {:induction false} SuccessMembers(branches: seq<string>, settled: seq<Settlement>, c: Contribution)
    requires |branches| == |settled|
    ensures c in Successes(branches, settled) <==>
              exists i :: 0 <= i < |settled| && settled[i] == Ok(c.delta) && branches[i] == c.branch
  {
    if settled != [] {
      SuccessMembers(branches[1..], settled[1..], c);
      if c in Successes(branches[1..], settled[1..]) {
        var i :| 0 <= i < |settled[1..]| && settled[1..][i] == Ok(c.delta) && branches[1..][i] == c.branch;
        assert settled[i + 1] == Ok(c.delta) && branches[i + 1] == c.branch;
      }
      if exists i :: 0 < i < |settled| && settled[i] == Ok(c.delta) && branches[i] == c.branch {
        var i :| 0 < i < |settled| && settled[i] == Ok(c.delta) && branches[i] == c.branch;
        assert settled[1..][i - 1] == Ok(c.delta) && branches[1..][i - 1] == c.branch;
      }
    }
  }

  function CountOk(settled: seq<Settlement>): nat {
    if settled == [] then 0 else CountOk(settled[..|settled| - 1]) + if settled[|settled| - 1].Ok? then 1 else 0
  }

  lemma {:induction false} CountOkHead(settled: seq<Settlement>)
    requires settled != []
    ensures CountOk(settled) == (if settled[0].Ok? then 1 else 0) + CountOk(settled[1..])
  {
    var front := settled[..|settled| - 1];
    if |settled| > 1 {
      CountOkHead(front);
      assert settled[1..][..|settled| - 2] == front[1..];
    }
  }

  lemma {:induction false} SuccessCount(branches: seq<string>, settled: seq<Settlement>)
    requires |branches| == |settled|
    ensures |Successes(branches, settled)| == CountOk(settled)
  {
    if settled != [] {
      CountOkHead(settled);
      SuccessCount(branches[1..], settled[1..]);
    }
  }

  lemma {:induction false} FailureMembers(settled: seq<Settlement>)
    ensures forall e :: e in Failures(settled) <==> exists o <- settled :: o == Failed(e)
    ensures Failures(settled) == [] <==> forall o <- settled :: !o.Failed?
  {
    if settled != [] {
      assert settled == [settled[0]] + settled[1..];
      assert settled[0] in settled && forall o <- settled[1..] :: o in settled;
      FailureMembers(settled[1..]);
      assert (forall o <- settled :: !o.Failed?) <==> !settled[0].Failed? && forall o <- settled[1..] :: !o.Failed?;
    }
  }

  /** Every branch ran to an outcome of its own. */
  ghost predicate AllRan(settled: seq<Settlement>) { forall o <- settled :: o.Ok? || o.Failed? }

  /** The names a custom join returned, if it returned any. */
  function Wanted(join: Join, branches: seq<string>, settled: seq<Settlement>): seq<string>
    requires join.CustomJoin? && |branches| == |settled|
  {
    match join.admit(JoinView(branches, settled)) case Admits(names) => names case JoinThrows(_) => []
  }

  /** The join's rule, said of the outcomes. */
  ghost predicate Satisfied(join: Join, branches: seq<string>, settled: seq<Settlement>)
    requires |branches| == |settled|
  {
    match join
    case JoinAll => forall o <- settled :: o.Ok?
    case JoinAny => exists o <- settled :: o.Ok?
    case FirstSuccess => exists o <- settled :: o.Ok?
    case Quorum(n) => CountOk(settled) >= n
    case CustomJoin(_, _) =>
      var names := Wanted(join, branches, settled);
      names != [] && forall n <- names :: exists i :: 0 <= i < |settled| && branches[i] == n && settled[i].Ok?
  }

  /** Branch `i` is one the rule lets in. */
  ghost predicate LetIn(join: Join, branches: seq<string>, settled: seq<Settlement>, i: nat)
    requires |branches| == |settled|
  {
    && i < |settled| && settled[i].Ok?
    && (join.FirstSuccess? ==> forall j :: 0 <= j < i ==> !settled[j].Ok?)
    && (join.CustomJoin? ==> branches[i] in Wanted(join, branches, settled))
  }

  lemma {:induction false} ChosenMembers(ok: seq<Contribution>, names: seq<string>, c: Contribution)
    ensures c in Chosen(ok, names) <==> c in ok && c.branch in names
  {
    if ok != [] {
      assert ok == [ok[0]] + ok[1..];
      ChosenMembers(ok[1..], names, c);
    }
  }

  lemma {:induction false} ForeignerLaw(names: seq<string>, ok: seq<Contribution>)
    ensures Foreigner(names, ok).None? <==> forall n <- names :: n in Names(ok)
    ensures Foreigner(names, ok).Some? ==>
              Foreigner(names, ok).value in names && Foreigner(names, ok).value !in Names(ok)
  {
    if names != [] {
      assert names == [names[0]] + names[1..];
      ForeignerLaw(names[1..], ok);
    }
  }

  lemma NamedSuccess(branches: seq<string>, settled: seq<Settlement>, n: string)
    requires |branches| == |settled|
    ensures n in Names(Successes(branches, settled)) <==>
              exists i :: 0 <= i < |settled| && branches[i] == n && settled[i].Ok?
  {
    var ok := Successes(branches, settled);
    if n in Names(ok) {
      var k :| 0 <= k < |ok| && Names(ok)[k] == n;
      SuccessMembers(branches, settled, ok[k]);
    }
    if exists i :: 0 <= i < |settled| && branches[i] == n && settled[i].Ok? {
      var i :| 0 <= i < |settled| && branches[i] == n && settled[i].Ok?;
      var c := Contribution(n, settled[i].delta);
      SuccessMembers(branches, settled, c);
      var k :| 0 <= k < |ok| && ok[k] == c;
      assert Names(ok)[k] == n;
    }
  }

  lemma {:induction false} FirstSuccessMember(branches: seq<string>, settled: seq<Settlement>, c: Contribution)
    requires |branches| == |settled| && Successes(branches, settled) != []
    ensures c == Successes(branches, settled)[0] ==>
              exists i :: 0 <= i < |settled| && settled[i] == Ok(c.delta) && branches[i] == c.branch
                          && forall j :: 0 <= j < i ==> !settled[j].Ok?
  {
    if !settled[0].Ok? {
      FirstSuccessMember(branches[1..], settled[1..], c);
      if c == Successes(branches, settled)[0] {
        var i :| 0 <= i < |settled[1..]| && settled[1..][i] == Ok(c.delta) && branches[1..][i] == c.branch
                 && forall j :: 0 <= j < i ==> !settled[1..][j].Ok?;
        assert settled[i + 1] == Ok(c.delta) && branches[i + 1] == c.branch;
        assert forall j :: 0 < j < i + 1 ==> settled[j] == settled[1..][j - 1];
      }
    }
  }

  /** The contribution of branch `i`. */
  ghost predicate Gives(branches: seq<string>, settled: seq<Settlement>, i: nat, c: Contribution)
    requires |branches| == |settled|
  {
    i < |settled| && settled[i] == Ok(c.delta) && branches[i] == c.branch
  }

  lemma AdmitDecides(source: string, join: Join, branches: seq<string>, settled: seq<Settlement>)
    requires |branches| == |settled| > 0 && AllRan(settled)
    requires join.Quorum? ==> join.n >= 1
    ensures Admit(source, join, branches, settled).Success? <==> Satisfied(join, branches, settled)
  {
    hide Successes, Failures, Chosen, Foreigner, CountOk, JoinView, Names;
    if join.CustomJoin? {
      CustomDecides(source, join, branches, settled);
    } else {
      SuccessCount(branches, settled);
      FailureMembers(settled);
      SomeOk(settled);
      assert settled[0] in settled;
    }
  }

  lemma CustomDecides(source: string, join: Join, branches: seq<string>, settled: seq<Settlement>)
    requires |branches| == |settled| && join.CustomJoin?
    ensures Admit(source, join, branches, settled).Success? <==> Satisfied(join, branches, settled)
  {
    hide Successes, Failures, Chosen, Foreigner, JoinView, Names;
    var ok, names := Successes(branches, settled), Wanted(join, branches, settled);
    ForeignerLaw(names, ok);
    forall n | n in names
      ensures n in Names(ok) <==> exists i :: 0 <= i < |settled| && branches[i] == n && settled[i].Ok?
    {
      NamedSuccess(branches, settled, n);
    }
    if forall n <- names :: n in Names(ok) { ChosenSome(ok, names); }
  }

  lemma {:induction false} SomeOk(settled: seq<Settlement>)
    ensures CountOk(settled) > 0 <==> exists o <- settled :: o.Ok?
  {
    if settled != [] {
      var front, last := settled[..|settled| - 1], settled[|settled| - 1];
      SomeOk(front);
      assert settled == front + [last];
    }
  }

  lemma ChosenSome(ok: seq<Contribution>, names: seq<string>)
    requires forall n <- names :: n in Names(ok)
    ensures Chosen(ok, names) != [] <==> names != []
  {
    if names != [] {
      assert names[0] in names;
      var k :| 0 <= k < |ok| && Names(ok)[k] == names[0];
      ChosenMembers(ok, names, ok[k]);
    } else if Chosen(ok, names) != [] {
      ChosenMembers(ok, names, Chosen(ok, names)[0]);
    }
  }

  lemma AdmitSelects(source: string, join: Join, branches: seq<string>, settled: seq<Settlement>, c: Contribution)
    requires |branches| == |settled| && Ascending(branches)
    requires Admit(source, join, branches, settled).Success?
    ensures c in Admit(source, join, branches, settled).value <==>
              exists i: nat :: LetIn(join, branches, settled, i) && Gives(branches, settled, i, c)
  {
    hide Successes, Failures, Chosen, Foreigner, JoinView, Ascending;
    var ok := Successes(branches, settled);
    SuccessMembers(branches, settled, c);
    if join.CustomJoin? {
      ChosenMembers(ok, Wanted(join, branches, settled), c);
    }
    if c in ok {
      var i :| 0 <= i < |settled| && settled[i] == Ok(c.delta) && branches[i] == c.branch;
      assert Gives(branches, settled, i, c);
    }
    if join.FirstSuccess? { FirstIsLetIn(source, join, branches, settled, c); }
  }

  lemma FirstIsLetIn(source: string, join: Join, branches: seq<string>, settled: seq<Settlement>, c: Contribution)
    requires |branches| == |settled| && Successes(branches, settled) != [] && join.FirstSuccess?
    ensures c in Successes(branches, settled)[..1] <==>
              exists i: nat :: LetIn(join, branches, settled, i) && Gives(branches, settled, i, c)
  {
    hide Successes;
    var first := Successes(branches, settled)[0];
    assert Successes(branches, settled)[..1] == [first];
    FirstSuccessMember(branches, settled, first);
    var k :| 0 <= k < |settled| && settled[k] == Ok(first.delta) && branches[k] == first.branch
             && forall j :: 0 <= j < k ==> !settled[j].Ok?;
    assert LetIn(join, branches, settled, k) && Gives(branches, settled, k, first);
    if exists i: nat :: LetIn(join, branches, settled, i) && Gives(branches, settled, i, c) {
      var i: nat :| LetIn(join, branches, settled, i) && Gives(branches, settled, i, c);
      assert i == k;
    }
  }

  /** A join admits exactly when its rule is satisfied by the outcomes, and then exactly the
      branches the rule lets in, ascending; a refusal carries the errors of all failed
      branches, a custom join that raises or names a branch that did not succeed raises
      that instead. */
  lemma AdmitLaw(source: string, join: Join, branches: seq<string>, settled: seq<Settlement>)
    requires |branches| == |settled| > 0 && Ascending(branches) && AllRan(settled)
    requires join.Quorum? ==> join.n >= 1
    ensures var r := Admit(source, join, branches, settled);
            && (r.Success? <==> Satisfied(join, branches, settled))
            && (r.Success? ==>
                  && Ascending(Names(r.value))
                  && forall c :: c in r.value <==>
                       exists i: nat :: LetIn(join, branches, settled, i) && Gives(branches, settled, i, c))
            && (r.Failure? && r.error.JoinRefused? && (exists o <- settled :: o.Failed?) ==>
                  forall e :: e in r.error.errors <==> exists o <- settled :: o == Failed(e))
            && (r.Failure? && !join.CustomJoin? ==> r.error.JoinRefused?)
            && (r.Failure? && r.error.ForeignBranch? ==>
                  forall i :: 0 <= i < |settled| && branches[i] == r.error.name ==> !settled[i].Ok?)
  {
    hide Successes, Failures, Chosen, Foreigner, CountOk, JoinView, Ascending, Names, LetIn, Gives, Satisfied, Selected;
    var r := Admit(source, join, branches, settled);
    AdmitDecides(source, join, branches, settled);
    FailureMembers(settled);
    if r.Success? {
      AdmitSelected(source, join, branches, settled);
      SelectedAscends(r.value, branches);
      forall c
        ensures c in r.value <==> exists i: nat :: LetIn(join, branches, settled, i) && Gives(branches, settled, i, c)
      {
        AdmitSelects(source, join, branches, settled, c);
      }
    } else if r.error.ForeignBranch? {
      ForeignerLaw(Wanted(join, branches, settled), Successes(branches, settled));
      NamedSuccess(branches, settled, r.error.name);
    }
  }

  /** A custom join is shown every branch in name order, with whether it succeeded and, if it
      failed, its error. Its own fault is raised as it is; otherwise it admits if it names
      successful branches only, and at least one, and then exactly those. */
  lemma CustomJoinLaw(source: string, admit: seq<BranchOutcome> -> JoinAnswer, ref: Option<string>,
                      branches: seq<string>, settled: seq<Settlement>, view: seq<BranchOutcome>)
    requires |branches| == |settled| == |view| > 0 && Ascending(branches) && AllRan(settled)
    requires forall i :: 0 <= i < |view| ==>
               && view[i].name == branches[i] && (view[i].ok <==> settled[i].Ok?)
               && view[i].error == if settled[i].Failed? then Some(settled[i].error) else None
    ensures var r := Admit(source, CustomJoin(admit, ref), branches, settled);
            match admit(view)
            case JoinThrows(fault) => r == Failure(Raised(fault))
            case Admits(names) =>
              && (r.Success? <==>
                    names != [] && forall n <- names :: exists i :: 0 <= i < |view| && view[i].name == n && view[i].ok)
              && (r.Success? ==>
                    forall c :: c in r.value <==>
                      exists i: nat :: i < |view| && view[i].ok && view[i].name in names
                                       && Gives(branches, settled, i, c))
  {
    hide Successes, Failures, Chosen, Foreigner, Names, Gives;
    var join := CustomJoin(admit, ref);
    assert JoinView(branches, settled) == view;
    CustomDecides(source, join, branches, settled);
    var r := Admit(source, join, branches, settled);
    if r.Success? {
      forall c
        ensures c in r.value <==>
                  exists i: nat :: i < |view| && view[i].ok && view[i].name in admit(view).names
                                   && Gives(branches, settled, i, c)
      {
        AdmitSelects(source, join, branches, settled, c);
      }
    }
  }

  lemma SelectedAscends(items: seq<Contribution>, branches: seq<string>)
    requires Selected(items, branches)
    ensures Ascending(Names(items))
  {
  }

  // ----- whose write a reducer takes -----

  /** Every write to the field comes from a branch between those of the first and the last. */
  lemma WritesBetween(items: seq<Contribution>, key: string, d: Contribution)
    requires Ascending(Names(items)) && d in items && key in d.delta
    ensures var ws := Writes(items, key);
            ws != [] && StrLe(ws[0].branch, d.branch) && StrLe(d.branch, ws[|ws| - 1].branch)
  {
    hide Writes, StrLe, Ascending, Names;
    var ws := Writes(items, key);
    WritesOrdered(items, key);
    WritesMatch(items, key, Write(d.branch, d.delta[key]));
    var k :| 0 <= k < |ws| && ws[k] == Write(d.branch, d.delta[key]);
    StrOrder(d.branch, d.branch, d.branch);
  }

  /** `first` and `last` take the write of the least and of the greatest branch, in name
      order, among those admitted that wrote the field. */
  lemma FirstAndLastLaw(items: seq<Contribution>, key: string, base: Value)
    requires Ascending(Names(items)) && key in Keys(items) && Writes(items, key) != []
    ensures exists c <- items :: key in c.delta
              && ReduceField(key, First, base, Writes(items, key)) == Success(c.delta[key])
              && forall d <- items :: key in d.delta ==> StrLe(c.branch, d.branch)
    ensures exists c <- items :: key in c.delta
              && ReduceField(key, Last, base, Writes(items, key)) == Success(c.delta[key])
              && forall d <- items :: key in d.delta ==> StrLe(d.branch, c.branch)
  {
    hide Writes, StrLe, Ascending, Names, Keys;
    var ws := Writes(items, key);
    WritesMatch(items, key, ws[0]);
    WritesMatch(items, key, ws[|ws| - 1]);
    var least :| least in items && least.branch == ws[0].branch && key in least.delta &&
                 least.delta[key] == ws[0].value;
    var greatest :| greatest in items && greatest.branch == ws[|ws| - 1].branch && key in greatest.delta
                    && greatest.delta[key] == ws[|ws| - 1].value;
    forall d | d in items && key in d.delta ensures StrLe(least.branch, d.branch) && StrLe(d.branch, greatest.branch) {
      WritesBetween(items, key, d);
    }
  }

  lemma {:induction false} WritesMatch(items: seq<Contribution>, key: string, w: Write)
    ensures w in Writes(items, key) <==> exists c <- items ::
              c.branch == w.branch && key in c.delta && c.delta[key] == w.value
  {
    if items != [] {
      assert items == [items[0]] + items[1..];
      WritesMatch(items[1..], key, w);
    }
  }

  lemma {:induction false} WritesOrdered(items: seq<Contribution>, key: string)
    requires Ascending(Names(items))
    ensures forall i, j :: 0 <= i < j < |Writes(items, key)| ==>
              StrLt(Writes(items, key)[i].branch, Writes(items, key)[j].branch)
  {
    hide StrLt;
    if items != [] {
      var rest := items[1..];
      assert Ascending(Names(rest)) by {
        forall i, j | 0 <= i < j < |rest| ensures StrLt(Names(rest)[i], Names(rest)[j]) {
          assert StrLt(Names(items)[i + 1], Names(items)[j + 1]);
        }
      }
      WritesOrdered(rest, key);
      if key in items[0].delta {
        forall w | w in Writes(rest, key) ensures StrLt(items[0].branch, w.branch) {
          WritesMatch(rest, key, w);
          var c :| c in rest && c.branch == w.branch;
          var k :| 0 <= k < |rest| && rest[k] == c;
          assert StrLt(Names(items)[0], Names(items)[k + 1]);
        }
        var ws := Writes(items, key);
        forall i, j | 0 <= i < j < |ws| ensures StrLt(ws[i].branch, ws[j].branch) {
          assert ws[j] == Writes(rest, key)[j - 1] && ws[j] in Writes(rest, key);
        }
      }
    }
  }
}
