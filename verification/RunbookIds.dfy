/**
 Step IDs of a runbook: the duplicate check of internal/runbooks/validate.go, the namespacing of
 internal/runbooks/normalize.go, and the idempotency key built from them in
 internal/controlplane/temporal/runbook_activities.go.
 */
module RunbookIds {
  import opened Wrappers
  import opened GoStrings
  import opened Memory

  // ---------- validation ----------

  datatype ValidationError =
    | IdRequired | VersionRequired | NameRequired | NoSteps
    | StepIdRequired | DuplicateStepId(id: string) | BadStep(id: string)

  function AllSteps(rb: Runbook): seq<RunbookStep> {
    rb.diagnostics + rb.actions
  }

  ghost predicate DistinctIds(steps: seq<RunbookStep>) {
    forall i, j :: 0 <= i < j < |steps| ==> steps[i].id != steps[j].id
  }

  function IdsOf(steps: seq<RunbookStep>): set<string> {
    set i | 0 <= i < |steps| :: steps[i].id
  }

  /** `addStep`: `fieldsOk` stands for the checks on the step's other fields. */
  method AddStep(s: RunbookStep, seen: set<string>, fieldsOk: RunbookStep -> bool)
    returns (seen': set<string>, err: Option<ValidationError>)
    ensures err == None <==> TrimSpace(s.id) != "" && s.id !in seen && fieldsOk(s)
    ensures err == None ==> seen' == seen + {s.id}
    ensures err.Some? ==>
      if TrimSpace(s.id) == "" then err.value == StepIdRequired
      else if s.id in seen then err.value == DuplicateStepId(s.id)
      else !fieldsOk(s) && err.value == BadStep(s.id)
  {
    seen' := seen;
    if TrimSpace(s.id) == "" { return seen', Some(StepIdRequired); }
    if s.id in seen { return seen', Some(DuplicateStepId(s.id)); }
    seen' := seen + {s.id};
    if !fieldsOk(s) { return seen', Some(BadStep(s.id)); }
    return seen', None;
  }

  ghost predicate StepsOk(steps: seq<RunbookStep>, fieldsOk: RunbookStep -> bool) {
    forall s :: s in steps ==> TrimSpace(s.id) != "" && fieldsOk(s)
  }

  /** Step `k` is the first that is wrong by itself or repeats an earlier ID, and `e` says how. */
  ghost predicate FirstOffence(all: seq<RunbookStep>, fieldsOk: RunbookStep -> bool, k: nat, e: ValidationError) {
    && k < |all| && DistinctIds(all[..k]) && StepsOk(all[..k], fieldsOk)
    && if TrimSpace(all[k].id) == "" then e == StepIdRequired
       else if exists j :: 0 <= j < k && all[j].id == all[k].id then e == DuplicateStepId(all[k].id)
       else !fieldsOk(all[k]) && e == BadStep(all[k].id)
  }

  lemma IsFirstOffence(done: seq<RunbookStep>, s: RunbookStep, rest: seq<RunbookStep>, fieldsOk: RunbookStep -> bool,
                       e: ValidationError)
    requires DistinctIds(done) && StepsOk(done, fieldsOk)
    requires if TrimSpace(s.id) == "" then e == StepIdRequired
             else if s.id in IdsOf(done) then e == DuplicateStepId(s.id)
             else !fieldsOk(s) && e == BadStep(s.id)
    ensures FirstOffence(done + [s] + rest, fieldsOk, |done|, e)
  {
    hide TrimSpace;
    var all := done + [s] + rest;
    assert all[..|done|] == done && all[|done|] == s;
    if s.id in IdsOf(done) {
      var j :| 0 <= j < |done| && done[j].id == s.id;
      assert all[j].id == all[|done|].id;
    } else {
      forall j | 0 <= j < |done| ensures all[j].id != s.id {
        assert done[j].id in IdsOf(done);
      }
    }
  }

  /** `before` are the steps already added. */
  method AddSteps(steps: seq<RunbookStep>, before: seq<RunbookStep>, seen: set<string>, fieldsOk: RunbookStep -> bool)
    returns (seen': set<string>, err: Option<ValidationError>)
    requires seen == IdsOf(before) && DistinctIds(before)
    ensures err == None <==> DistinctIds(before + steps) && StepsOk(steps, fieldsOk)
    ensures err == None ==> seen' == IdsOf(before + steps)
    ensures err.Some? && StepsOk(before, fieldsOk) ==>
              exists k: nat :: FirstOffence(before + steps, fieldsOk, k, err.value)
  {
    hide DistinctIds, IdsOf, StepsOk, FirstOffence;
    seen', err := seen, None;
    assert before + steps[..0] == before;
    NoStepsAreOk(fieldsOk);
    for i := 0 to |steps|
      invariant err == None && seen' == IdsOf(before + steps[..i]) && DistinctIds(before + steps[..i])
      invariant StepsOk(steps[..i], fieldsOk)
    {
      IdsSnoc(before + steps[..i], steps[i]);
      StepsOkSnoc(steps[..i], steps[i], fieldsOk);
      assert steps[..i + 1] == steps[..i] + [steps[i]];
      assert before + steps[..i + 1] == before + steps[..i] + [steps[i]];
      seen', err := AddStep(steps[i], seen', fieldsOk);
      if err.Some? {
        RejectedStaysRejected(before, steps, i + 1, fieldsOk);
        if StepsOk(before, fieldsOk) {
          StepsOkAdds(before, steps[..i], fieldsOk);
          IsFirstOffence(before + steps[..i], steps[i], steps[i + 1..], fieldsOk, err.value);
          assert before + steps[..i] + [steps[i]] + steps[i + 1..] == before + steps;
        }
        return;
      }
    }
    assert steps[..|steps|] == steps;
  }

  lemma NoStepsAreOk(fieldsOk: RunbookStep -> bool)
    ensures StepsOk([], fieldsOk)
  {
  }

  lemma StepsOkAdds(a: seq<RunbookStep>, b: seq<RunbookStep>, fieldsOk: RunbookStep -> bool)
    ensures StepsOk(a + b, fieldsOk) <==> StepsOk(a, fieldsOk) && StepsOk(b, fieldsOk)
  {
    assert forall s :: s in a + b <==> s in a || s in b;
  }

  lemma StepsOkSnoc(steps: seq<RunbookStep>, s: RunbookStep, fieldsOk: RunbookStep -> bool)
    ensures StepsOk(steps + [s], fieldsOk) <==> StepsOk(steps, fieldsOk) && TrimSpace(s.id) != "" && fieldsOk(s)
  {
    assert s in steps + [s];
    assert forall x :: x in steps ==> x in steps + [s];
  }

  lemma RejectedStaysRejected(before: seq<RunbookStep>, steps: seq<RunbookStep>, n: nat, fieldsOk: RunbookStep -> bool)
    requires n <= |steps|
    ensures DistinctIds(before + steps) ==> DistinctIds(before + steps[..n])
    ensures StepsOk(steps, fieldsOk) ==> StepsOk(steps[..n], fieldsOk)
  {
    assert (before + steps)[..|before| + n] == before + steps[..n];
    if DistinctIds(before + steps) {
      DistinctPrefix(before + steps, |before| + n);
    }
    assert forall x :: x in steps[..n] ==> x in steps;
  }

  lemma IdsSnoc(steps: seq<RunbookStep>, s: RunbookStep)
    ensures IdsOf(steps + [s]) == IdsOf(steps) + {s.id}
    ensures DistinctIds(steps + [s]) <==> DistinctIds(steps) && s.id !in IdsOf(steps)
  {
    var more := steps + [s];
    forall id | id in IdsOf(steps) ensures id in IdsOf(more) {
      var i :| 0 <= i < |steps| && steps[i].id == id;
      assert more[i].id == id;
    }
    assert more[|steps|].id == s.id;
    if DistinctIds(more) {
      DistinctPrefix(more, |steps|);
      assert more[..|steps|] == steps;
      assert forall i :: 0 <= i < |steps| ==> more[i] == steps[i];
    }
  }

  lemma DistinctPrefix(steps: seq<RunbookStep>, n: nat)
    requires n <= |steps| && DistinctIds(steps)
    ensures DistinctIds(steps[..n])
  {
  }

  /** What validation promises of a runbook: an ID, a version, a name and steps, and distinct non-blank step IDs. */
  ghost predicate Accepted(rb: Runbook, fieldsOk: RunbookStep -> bool) {
    && TrimSpace(rb.id) != "" && TrimSpace(rb.version) != "" && TrimSpace(rb.name) != ""
    && AllSteps(rb) != [] && DistinctIds(AllSteps(rb)) && StepsOk(AllSteps(rb), fieldsOk)
  }

  /** What is wrong with a runbook: the first field that is blank, or the first step that offends. */
  ghost predicate WrongWith(rb: Runbook, fieldsOk: RunbookStep -> bool, e: ValidationError) {
    if TrimSpace(rb.id) == "" then e == IdRequired
    else if TrimSpace(rb.version) == "" then e == VersionRequired
    else if TrimSpace(rb.name) == "" then e == NameRequired
    else if AllSteps(rb) == [] then e == NoSteps
    else exists k: nat :: FirstOffence(AllSteps(rb), fieldsOk, k, e)
  }

  method ValidateRunbook(rb: Runbook, fieldsOk: RunbookStep -> bool) returns (err: Option<ValidationError>)
    ensures err == None <==> Accepted(rb, fieldsOk)
    ensures err.Some? ==> WrongWith(rb, fieldsOk, err.value)
  {
    hide DistinctIds, IdsOf, TrimSpace, FirstOffence, StepsOk;
    if TrimSpace(rb.id) == "" { return Some(IdRequired); }
    if TrimSpace(rb.version) == "" { return Some(VersionRequired); }
    if TrimSpace(rb.name) == "" { return Some(NameRequired); }
    if |rb.diagnostics| == 0 && |rb.actions| == 0 { return Some(NoSteps); }
    var seen;
    assert [] + rb.diagnostics == rb.diagnostics;
    PartsOk(rb, fieldsOk);
    NoStepsAreOk(fieldsOk);
    seen, err := AddSteps(rb.diagnostics, [], {}, fieldsOk);
    if err.Some? {
      ghost var k: nat :| FirstOffence(rb.diagnostics, fieldsOk, k, err.value);
      OffenceStays(rb.diagnostics, rb.actions, fieldsOk, k, err.value);
      return;
    }
    assert [] + rb.diagnostics == rb.diagnostics;
    seen, err := AddSteps(rb.actions, rb.diagnostics, seen, fieldsOk);
  }

  lemma OffenceStays(steps: seq<RunbookStep>, more: seq<RunbookStep>, fieldsOk: RunbookStep -> bool, k: nat,
                     e: ValidationError)
    requires FirstOffence(steps, fieldsOk, k, e)
    ensures FirstOffence(steps + more, fieldsOk, k, e)
  {
    hide TrimSpace, StepsOk, DistinctIds;
    assert (steps + more)[..k] == steps[..k];
    assert forall j :: 0 <= j <= k ==> (steps + more)[j] == steps[j];
  }

  lemma PartsOk(rb: Runbook, fieldsOk: RunbookStep -> bool)
    ensures IdsOf([]) == {} && DistinctIds([])
    ensures DistinctIds(AllSteps(rb)) ==> DistinctIds(rb.diagnostics)
    ensures StepsOk(AllSteps(rb), fieldsOk) <==> StepsOk(rb.diagnostics, fieldsOk) && StepsOk(rb.actions, fieldsOk)
  {
    if DistinctIds(AllSteps(rb)) {
      DistinctPrefix(AllSteps(rb), |rb.diagnostics|);
      assert AllSteps(rb)[..|rb.diagnostics|] == rb.diagnostics;
    }
  }

  // ---------- namespacing ----------

  function Prefix(rb: Runbook): string {
    TrimSpace(rb.id) + ":" + TrimSpace(rb.version) + ":"
  }

  function NormalizeStepId(prefix: string, s: RunbookStep): RunbookStep {
    var id := TrimSpace(s.id);
    if id == "" || prefix <= id then s else s.(id := prefix + id)
  }

  function NormalizeAll(prefix: string, steps: seq<RunbookStep>): seq<RunbookStep> {
    seq(|steps|, i requires 0 <= i < |steps| => NormalizeStepId(prefix, steps[i]))
  }

  function Normalized(rb: Runbook): Runbook {
    if TrimSpace(rb.id) == "" || TrimSpace(rb.version) == "" then rb
    else rb.(diagnostics := NormalizeAll(Prefix(rb), rb.diagnostics), actions := NormalizeAll(Prefix(rb), rb.actions))
  }

  method NormalizeSteps(prefix: string, steps: seq<RunbookStep>) returns (out: seq<RunbookStep>)
    ensures out == NormalizeAll(prefix, steps)
  {
    hide NormalizeStepId;
    out := [];
    for i := 0 to |steps|
      invariant |out| == i && forall k :: 0 <= k < i ==> out[k] == NormalizeStepId(prefix, steps[k])
    {
      out := out + [NormalizeStepId(prefix, steps[i])];
    }
  }

  method NormalizeIDs(rb: Runbook) returns (out: Runbook)
    ensures out == Normalized(rb)
  {
    hide NormalizeAll;
    var prefix := TrimSpace(rb.id) + ":" + TrimSpace(rb.version) + ":";
    if TrimSpace(rb.id) == "" || TrimSpace(rb.version) == "" { return rb; }
    var diagnostics := NormalizeSteps(prefix, rb.diagnostics);
    var actions := NormalizeSteps(prefix, rb.actions);
    out := rb.(diagnostics := diagnostics, actions := actions);
  }

  /** What the namespace of a runbook with an ID looks like. */
  ghost predicate IsNamespace(prefix: string) {
    |prefix| > 0 && !IsSpace(prefix[0])
  }

  lemma PrefixIsNamespace(rb: Runbook)
    requires TrimSpace(rb.id) != ""
    ensures IsNamespace(Prefix(rb))
  {
    TrimSpaceTrims(rb.id);
    assert Prefix(rb)[0] == TrimSpace(rb.id)[0];
  }

  lemma PrefixedIsTrimmed(prefix: string, id: string)
    requires IsNamespace(prefix) && id != "" && Trimmed(id)
    ensures TrimSpace(prefix + id) == prefix + id
  {
    TrimSpaceTrims(prefix + id);
    assert (prefix + id)[|prefix + id| - 1] == id[|id| - 1];
  }

  lemma NormalizeStepTwice(prefix: string, s: RunbookStep)
    requires IsNamespace(prefix)
    ensures NormalizeStepId(prefix, NormalizeStepId(prefix, s)) == NormalizeStepId(prefix, s)
  {
    hide TrimSpace, Trimmed;
    TrimSpaceTrims(s.id);
    if TrimSpace(s.id) != "" {
      PrefixedIsTrimmed(prefix, TrimSpace(s.id));
    }
  }

  lemma NormalizedPrefix(rb: Runbook)
    ensures Prefix(Normalized(rb)) == Prefix(rb)
  {
  }

  /** On every runbook, normalising twice is normalising once. */
  lemma NormalizeIsIdempotent(rb: Runbook)
    ensures Normalized(Normalized(rb)) == Normalized(rb)
  {
    hide NormalizeStepId, TrimSpace, Prefix;
    if TrimSpace(rb.id) != "" && TrimSpace(rb.version) != "" {
      NormalizedPrefix(rb);
      PrefixIsNamespace(rb);
      forall s { NormalizeStepTwice(Prefix(rb), s); }
      assert Normalized(Normalized(rb)).diagnostics == Normalized(rb).diagnostics;
      assert Normalized(Normalized(rb)).actions == Normalized(rb).actions;
    }
  }

  /**
   Namespacing touches nothing but step IDs: the runbook, each step's place and its other fields stay. A
   non-blank ID outside the namespace gets it in front of its trimmed text, any other stays as it is.
   */
  lemma NormalizeChangesIdsOnly(rb: Runbook)
    ensures var out := Normalized(rb);
      && out.id == rb.id && out.version == rb.version && out.name == rb.name
      && |out.diagnostics| == |rb.diagnostics| && |out.actions| == |rb.actions|
    ensures TrimSpace(rb.id) == "" || TrimSpace(rb.version) == "" ==> Normalized(rb) == rb
    ensures TrimSpace(rb.id) != "" && TrimSpace(rb.version) != "" ==>
      forall i :: 0 <= i < |AllSteps(rb)| ==>
        var s := AllSteps(rb)[i];
        AllSteps(Normalized(rb))[i] ==
          if TrimSpace(s.id) == "" || Inside(Prefix(rb), s.id) then s else s.(id := Prefix(rb) + TrimSpace(s.id))
  {
    hide TrimSpace, Prefix;
  }

  // ---------- collisions ----------

  predicate Inside(prefix: string, id: string) {
    prefix <= TrimSpace(id)
  }

  /** `long` is spelled exactly as normalising spells `short`, and keeps that spelling. */
  predicate Shadows(prefix: string, long: string, short: string) {
    TrimSpace(short) != "" && !Inside(prefix, short) && long == prefix + TrimSpace(short)
  }

  /** Two spellings of one ID outside the namespace that differ only in surrounding white space. */
  predicate Respells(prefix: string, a: string, b: string) {
    TrimSpace(a) == TrimSpace(b) != "" && !Inside(prefix, a)
  }

  /** What a caller can check before normalising. */
  predicate Clash(prefix: string, a: string, b: string) {
    Respells(prefix, a, b) || Shadows(prefix, a, b) || Shadows(prefix, b, a)
  }

  /**
   Two different step IDs, whatever they are, collide after normalising exactly when they are outside the
   namespace and differ only in surrounding white space, or one is the namespace followed by the other
   one trimmed, which is outside it.
   */
  lemma CollideIffClash(prefix: string, a: RunbookStep, b: RunbookStep)
    requires IsNamespace(prefix) && a.id != b.id
    ensures NormalizeStepId(prefix, a).id == NormalizeStepId(prefix, b).id <==> Clash(prefix, a.id, b.id)
  {
    hide TrimSpace, Trimmed;
    SamePrefix(prefix, TrimSpace(a.id), TrimSpace(b.id));
    if TrimSpace(a.id) != "" { SpelledOutIsInside(prefix, a.id); }
    if TrimSpace(b.id) != "" { SpelledOutIsInside(prefix, b.id); }
  }

  lemma SamePrefix(prefix: string, a: string, b: string)
    ensures prefix + a == prefix + b <==> a == b
  {
    assert (prefix + a)[|prefix|..] == a && (prefix + b)[|prefix|..] == b;
  }

  lemma SpelledOutIsInside(prefix: string, id: string)
    requires IsNamespace(prefix) && TrimSpace(id) != ""
    ensures Inside(prefix, prefix + TrimSpace(id)) && TrimSpace(prefix + TrimSpace(id)) == prefix + TrimSpace(id)
  {
    hide TrimSpace, Trimmed;
    TrimSpaceTrims(id);
    PrefixedIsTrimmed(prefix, TrimSpace(id));
  }

  /** Validation does not see such clashes: every clashing pair of IDs occurs in a runbook it accepts. */
  lemma ClashesAreAccepted(rb: Runbook, a: RunbookStep, b: RunbookStep, fieldsOk: RunbookStep -> bool)
    requires TrimSpace(rb.id) != "" && TrimSpace(rb.version) != "" && TrimSpace(rb.name) != ""
    requires a.id != b.id && fieldsOk(a) && fieldsOk(b) && Clash(Prefix(rb), a.id, b.id)
    ensures var clashing := rb.(diagnostics := [a], actions := [b]);
      && Accepted(clashing, fieldsOk)
      && Normalized(clashing).diagnostics[0].id == Normalized(clashing).actions[0].id
  {
    hide TrimSpace, NormalizeStepId;
    PrefixIsNamespace(rb);
    CollideIffClash(Prefix(rb), a, b);
    ClashIsNotBlank(Prefix(rb), a.id, b.id);
    assert AllSteps(rb.(diagnostics := [a], actions := [b])) == [a, b];
  }

  lemma ClashIsNotBlank(prefix: string, a: string, b: string)
    requires IsNamespace(prefix) && Clash(prefix, a, b)
    ensures TrimSpace(a) != "" && TrimSpace(b) != ""
  {
    hide TrimSpace;
    if TrimSpace(a) != "" { SpelledOutIsInside(prefix, a); }
    if TrimSpace(b) != "" { SpelledOutIsInside(prefix, b); }
  }

  /** A step and the same step spelled out in the namespace clash. */
  lemma SpelledOutIdCollides(prefix: string, id: string)
    requires IsNamespace(prefix) && TrimSpace(id) != "" && !Inside(prefix, id)
    ensures prefix + TrimSpace(id) != id && Clash(prefix, id, prefix + TrimSpace(id))
  {
    hide TrimSpace;
    SpelledOutIsInside(prefix, id);
  }

  /** A step and the same step with a blank after its ID clash. */
  lemma PaddedIdsCollide(prefix: string, id: string)
    requires TrimSpace(id) != "" && !Inside(prefix, id)
    ensures id + " " != id && Clash(prefix, id, id + " ")
  {
    hide TrimSpace;
    TrimIgnoresTrailingBlank(id);
    assert |id + " "| == |id| + 1;
  }

  lemma TrimIgnoresTrailingBlank(id: string)
    requires TrimSpace(id) != ""
    ensures TrimSpace(id + " ") == TrimSpace(id)
  {
    TrimLeftIgnoresTrailingBlank(id);
    var l := TrimLeft(id);
    assert (l + " ")[..|l|] == l;
  }

  lemma {:induction false} TrimLeftIgnoresTrailingBlank(s: string)
    requires TrimLeft(s) != ""
    ensures TrimLeft(s + " ") == TrimLeft(s) + " "
  {
    if s != [] && IsSpace(s[0]) {
      assert (s + " ")[1..] == s[1..] + " ";
      TrimLeftIgnoresTrailingBlank(s[1..]);
    }
  }

  // ---------- collisions across runbooks ----------

  predicate Extends(q: string, y: string, p: string, x: string) {
    p <= q && x == q[|p|..] + y
  }

  /**
   Two steps outside their runbooks' namespaces get one ID exactly when one namespace extends the other and
   the step of the shorter one begins with what it lacks.
   */
  lemma NamespacesMeetIff(p: string, a: RunbookStep, q: string, b: RunbookStep)
    requires TrimSpace(a.id) != "" && !Inside(p, a.id) && TrimSpace(b.id) != "" && !Inside(q, b.id)
    ensures NormalizeStepId(p, a).id == NormalizeStepId(q, b).id <==>
            Extends(q, TrimSpace(b.id), p, TrimSpace(a.id)) || Extends(p, TrimSpace(a.id), q, TrimSpace(b.id))
  {
    hide TrimSpace;
    var x, y := TrimSpace(a.id), TrimSpace(b.id);
    if |p| <= |q| { PrefixesMeet(p, x, q, y); }
    if |q| <= |p| { PrefixesMeet(q, y, p, x); }
  }

  lemma PrefixesMeet(p: string, x: string, q: string, y: string)
    requires |p| <= |q|
    ensures p + x == q + y <==> Extends(q, y, p, x)
  {
    if p + x == q + y {
      assert p == (p + x)[..|p|] == (q + y)[..|p|] == q[..|p|];
      assert x == (p + x)[|p|..] == (q + y)[|p|..] == q[|p|..] + y;
    }
    if Extends(q, y, p, x) {
      assert q == p + q[|p|..];
    }
  }

  ghost predicate ColonFree(rb: Runbook) {
    ':' !in TrimSpace(rb.id) && ':' !in TrimSpace(rb.version)
  }

  /**
   So the namespaces do what they are for where no ID or version holds a colon: steps get one ID only if
   their runbooks have the same ID and version and the steps the same ID, up to surrounding white space.
   */
  lemma NamespacesKeepApart(rb: Runbook, a: RunbookStep, rb': Runbook, b: RunbookStep)
    requires ColonFree(rb) && ColonFree(rb')
    requires TrimSpace(a.id) != "" && !Inside(Prefix(rb), a.id) && TrimSpace(b.id) != "" && !Inside(Prefix(rb'), b.id)
    ensures NormalizeStepId(Prefix(rb), a).id == NormalizeStepId(Prefix(rb'), b).id <==>
      && TrimSpace(rb.id) == TrimSpace(rb'.id) && TrimSpace(rb.version) == TrimSpace(rb'.version)
      && TrimSpace(a.id) == TrimSpace(b.id)
  {
    hide TrimSpace;
    var p, q := Prefix(rb), Prefix(rb');
    NamespacesMeetIff(p, a, q, b);
    if p <= q { ColonFreeNamespaces(rb, rb'); }
    if q <= p { ColonFreeNamespaces(rb', rb); }
  }

  lemma ColonFreeNamespaces(rb: Runbook, rb': Runbook)
    requires ColonFree(rb) && ColonFree(rb') && Prefix(rb) <= Prefix(rb')
    ensures TrimSpace(rb.id) == TrimSpace(rb'.id) && TrimSpace(rb.version) == TrimSpace(rb'.version)
  {
    hide TrimSpace;
    var i, v, j, w := TrimSpace(rb.id), TrimSpace(rb.version), TrimSpace(rb'.id), TrimSpace(rb'.version);
    var rest := Prefix(rb')[|Prefix(rb)|..];
    assert i + [':'] + (v + [':'] + rest) == Prefix(rb) + rest == Prefix(rb') == j + [':'] + (w + [':'] + []);
    SplitIsUnique(i, j, ':', v + [':'] + rest, w + [':'] + []);
    SplitIsUnique(v, w, ':', rest, []);
  }

  /**
   With a colon they do not: moving it from the version to the ID leaves the namespace, and every step's
   ID, the same.
   */
  lemma ColonsMixNamespaces(rb: Runbook, rb': Runbook, x: string, y: string, z: string, s: RunbookStep)
    requires TrimSpace(rb.id) == x && TrimSpace(rb.version) == y + ":" + z
    requires TrimSpace(rb'.id) == x + ":" + y && TrimSpace(rb'.version) == z
    ensures NormalizeStepId(Prefix(rb), s) == NormalizeStepId(Prefix(rb'), s)
  {
    hide TrimSpace, NormalizeStepId;
    assert x + ":" + (y + ":" + z) + ":" == x + ":" + y + ":" + z + ":";
  }

  // ---------- idempotency keys ----------

  function IdempotencyKey(workflowId: string, stepId: string): string {
    if workflowId != "" && stepId != "" then workflowId + ":" + stepId else ""
  }

  /** Both IDs or no key. */
  lemma NoKeyWithoutIds(w: string, s: string)
    ensures IdempotencyKey(w, s) == "" <==> w == "" || s == ""
  {
    assert |w + ":" + s| > |w|;
  }

  /** The second pair reads the first pair's step ID from a colon of it on, the rest belonging to its workflow ID. */
  predicate Overlaps(w1: string, s1: string, w2: string, s2: string) {
    w1 + ":" <= w2 && s1 == w2[|w1| + 1..] + ":" + s2
  }

  /**
   Two pairs of non-blank IDs share a key exactly when they are the same pair or one workflow ID extends
   the other by a colon and the part of the step ID before a colon. So colon-free workflow IDs never do.
   */
  lemma KeysAreSharedIff(w1: string, s1: string, w2: string, s2: string)
    requires w1 != "" && s1 != "" && w2 != "" && s2 != ""
    ensures IdempotencyKey(w1, s1) == IdempotencyKey(w2, s2) <==>
            (w1 == w2 && s1 == s2) || Overlaps(w1, s1, w2, s2) || Overlaps(w2, s2, w1, s1)
    ensures ':' !in w1 && ':' !in w2 ==>
            (IdempotencyKey(w1, s1) == IdempotencyKey(w2, s2) <==> w1 == w2 && s1 == s2)
  {
    if |w1| <= |w2| { KeysMeet(w1, s1, w2, s2); }
    if |w2| <= |w1| { KeysMeet(w2, s2, w1, s1); }
    assert w1 + ":" <= w2 ==> w2[|w1|] == (w1 + ":")[|w1|] == ':';
    assert w2 + ":" <= w1 ==> w1[|w2|] == (w2 + ":")[|w2|] == ':';
  }

  lemma KeysMeet(w1: string, s1: string, w2: string, s2: string)
    requires |w1| <= |w2|
    ensures w1 + ":" + s1 == w2 + ":" + s2 <==> (w1 == w2 && s1 == s2) || Overlaps(w1, s1, w2, s2)
  {
    var k1, k2 := w1 + ":" + s1, w2 + ":" + s2;
    if Overlaps(w1, s1, w2, s2) {
      var x := w2[|w1| + 1..];
      assert w2 == w1 + ":" + x;
      assert w1 + ":" + (x + ":" + s2) == w1 + ":" + x + ":" + s2;
    }
    if k1 == k2 {
      assert w1 == k1[..|w1|] == k2[..|w1|] == w2[..|w1|];
      if |w1| == |w2| {
        assert s1 == k1[|w1| + 1..] && s2 == k2[|w1| + 1..];
      } else {
        assert w1 + ":" == k1[..|w1| + 1] == k2[..|w1| + 1] == w2[..|w1| + 1];
        assert s1 == k1[|w1| + 1..] == k2[|w1| + 1..] == w2[|w1| + 1..] + ":" + s2;
      }
    }
  }

  /** Each workflow ID with a colon inside does share keys: with the part before the colon, for every step. */
  lemma ColonsConfuseWorkflows(w: string, x: string, s: string)
    requires w != "" && s != ""
    ensures IdempotencyKey(w, x + ":" + s) == IdempotencyKey(w + ":" + x, s)
  {
    assert w + ":" + (x + ":" + s) == w + ":" + x + ":" + s;
  }

  ghost predicate NoClash(prefix: string, steps: seq<RunbookStep>) {
    forall i, j :: 0 <= i < j < |steps| ==> !Clash(prefix, steps[i].id, steps[j].id)
  }

  ghost predicate KeysDistinct(w: string, steps: seq<RunbookStep>) {
    forall i, j :: 0 <= i < j < |steps| ==> IdempotencyKey(w, steps[i].id) != IdempotencyKey(w, steps[j].id)
  }

  /**
   For every runbook that validation accepts, the keys of its normalised steps are pairwise distinct
   exactly when it has one step only, or the workflow has an ID and no two step IDs clash.
   */
  lemma KeysAreDistinctIff(rb: Runbook, w: string, fieldsOk: RunbookStep -> bool)
    requires Accepted(rb, fieldsOk)
    ensures KeysDistinct(w, AllSteps(Normalized(rb))) <==>
            |AllSteps(rb)| == 1 || (w != "" && NoClash(Prefix(rb), AllSteps(rb)))
  {
    hide NormalizeStepId, IdempotencyKey, Clash, DistinctIds, StepsOk, TrimSpace, AllSteps, Normalized, Prefix;
    var raw, steps, prefix := AllSteps(rb), AllSteps(Normalized(rb)), Prefix(rb);
    NormalizedPointwise(rb);
    PrefixIsNamespace(rb);
    if w == "" {
      NoWorkflowNoKeys(steps);
    } else {
      forall i, j | 0 <= i < j < |raw|
        ensures IdempotencyKey(w, steps[i].id) == IdempotencyKey(w, steps[j].id) <==>
                Clash(prefix, raw[i].id, raw[j].id)
      {
        PairOfKeys(prefix, raw, w, i, j, fieldsOk);
      }
    }
  }

  lemma NoWorkflowNoKeys(steps: seq<RunbookStep>)
    requires |steps| > 0
    ensures KeysDistinct("", steps) <==> |steps| == 1
  {
    if |steps| > 1 {
      assert IdempotencyKey("", steps[0].id) == IdempotencyKey("", steps[1].id);
    }
  }

  lemma NormalizedPointwise(rb: Runbook)
    requires TrimSpace(rb.id) != "" && TrimSpace(rb.version) != ""
    ensures |AllSteps(Normalized(rb))| == |AllSteps(rb)|
    ensures forall i :: 0 <= i < |AllSteps(rb)| ==>
              AllSteps(Normalized(rb))[i] == NormalizeStepId(Prefix(rb), AllSteps(rb)[i])
  {
    hide NormalizeStepId, TrimSpace, Prefix;
  }

  lemma PairOfKeys(prefix: string, raw: seq<RunbookStep>, w: string, i: nat, j: nat, fieldsOk: RunbookStep -> bool)
    requires IsNamespace(prefix) && w != "" && DistinctIds(raw) && StepsOk(raw, fieldsOk) && i < j < |raw|
    ensures var a, b := NormalizeStepId(prefix, raw[i]), NormalizeStepId(prefix, raw[j]);
      IdempotencyKey(w, a.id) == IdempotencyKey(w, b.id) <==> Clash(prefix, raw[i].id, raw[j].id)
  {
    hide NormalizeStepId, Clash, IsNamespace, TrimSpace;
    assert raw[i] in raw && raw[j] in raw;
    NormalizedIsNotBlank(prefix, raw[i]);
    NormalizedIsNotBlank(prefix, raw[j]);
    SamePrefix(w + ":", NormalizeStepId(prefix, raw[i]).id, NormalizeStepId(prefix, raw[j]).id);
    CollideIffClash(prefix, raw[i], raw[j]);
  }

  lemma NormalizedIsNotBlank(prefix: string, s: RunbookStep)
    requires TrimSpace(s.id) != ""
    ensures NormalizeStepId(prefix, s).id != ""
  {
  }
}
