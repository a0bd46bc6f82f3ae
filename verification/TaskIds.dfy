/**
 Task IDs that carry a tenant: the sanitiser and the printer of cmd/control-orchestrator/main.go and the
 parser of internal/middleware/tenancy.go.
 */
module TaskIds {
  import opened Wrappers
  import opened GoStrings

  const MAX_TENANT := 64
  const MARK := "-task-"

  /** `[a-zA-Z0-9_-]` */
  predicate IsTenantChar(c: char) {
    'a' <= c <= 'z' || 'A' <= c <= 'Z' || '0' <= c <= '9' || c == '_' || c == '-'
  }

  ghost predicate TenantText(s: string) {
    forall i :: 0 <= i < |s| ==> IsTenantChar(s[i])
  }

  function SkipOthers(s: string): (r: string)
    ensures |r| <= |s|
  {
    if s != [] && !IsTenantChar(s[0]) then SkipOthers(s[1..]) else s
  }

  /** Every run of other characters becomes one dash. */
  function ReplaceOthers(s: string): string
    decreases |s|
  {
    if s == [] then []
    else if IsTenantChar(s[0]) then [s[0]] + ReplaceOthers(s[1..])
    else ['-'] + ReplaceOthers(SkipOthers(s[1..]))
  }

  function TrimDashLeft(s: string): (r: string)
    ensures r == [] || r[0] != '-'
    ensures |r| <= |s| && r == s[|s| - |r|..]
  {
    if s != [] && s[0] == '-' then TrimDashLeft(s[1..]) else s
  }

  function TrimDashRight(s: string): (r: string)
    ensures r == [] || r[|r| - 1] != '-'
    ensures r <= s
  {
    if s != [] && s[|s| - 1] == '-' then TrimDashRight(s[..|s| - 1]) else s
  }

  /** `strings.Trim(s, "-")` */
  function TrimDashes(s: string): string {
    TrimDashRight(TrimDashLeft(s))
  }

  /** The sanitised text before it is cut to length. */
  function Cleaned(s: string): string {
    TrimDashes(ReplaceOthers(TrimSpace(s)))
  }

  function SanitizeTenantID(s: string): string {
    if TrimSpace(s) == "" then ""
    else
      var t := Cleaned(s);
      if |t| > MAX_TENANT then t[..MAX_TENANT] else t
  }

  /** `now` is the formatted time. */
  function MakeTaskID(tenantId: string, now: string): string {
    var t := SanitizeTenantID(tenantId);
    if t == "" then "task-" + now else "tenant-" + t + MARK + now
  }

  /** The first occurrence of `sub` at or after `i`, if any. */
  function FirstFrom(s: string, sub: string, i: nat): (r: Option<nat>)
    requires i <= |s|
    ensures r.Some? ==> i <= r.value <= |s| && OccursAt(s, r.value, sub)
    ensures r.Some? ==> forall j :: i <= j < r.value ==> !OccursAt(s, j, sub)
    ensures r.None? ==> forall j :: i <= j <= |s| ==> !OccursAt(s, j, sub)
    decreases |s| - i
  {
    if OccursAt(s, i, sub) then Some(i) else if i == |s| then None else FirstFrom(s, sub, i + 1)
  }

  function TenantFromTaskID(taskId: string): Option<string> {
    if !("tenant-" <= taskId) then None
    else
      var rest := taskId[7..];
      match FirstFrom(rest, MARK, 0)
      case None => None
      case Some(p) =>
        var tenant := TrimSpace(rest[..p]);
        if tenant == "" then None else Some(tenant)
  }

  // ---------- the sanitiser ----------

  lemma {:induction false} ReplacedIsTenantText(s: string)
    ensures TenantText(ReplaceOthers(s))
    ensures TenantText(s) ==> ReplaceOthers(s) == s
    decreases |s|
  {
    if s != [] {
      if IsTenantChar(s[0]) {
        ReplacedIsTenantText(s[1..]);
        assert s == [s[0]] + s[1..];
      } else {
        ReplacedIsTenantText(SkipOthers(s[1..]));
        assert !TenantText(s);
      }
    }
  }

  lemma TenantTextIsTrimmed(s: string)
    requires TenantText(s)
    ensures TrimSpace(s) == s
  {
    hide TrimSpace;
    TrimSpaceTrims(s);
    if s != "" {
      TenantCharIsNotSpace(s[0]);
      TenantCharIsNotSpace(s[|s| - 1]);
    }
  }

  lemma TenantCharIsNotSpace(c: char)
    requires IsTenantChar(c)
    ensures !IsSpace(c)
  {
  }

  lemma TrimDashesKeepsText(s: string)
    requires TenantText(s)
    ensures var t := TrimDashes(s);
      TenantText(t) && (t != "" ==> t[0] != '-' && t[|t| - 1] != '-')
  {
    var l := TrimDashLeft(s);
    assert TenantText(l);
    if TrimDashes(s) != "" {
      assert TrimDashes(s)[0] == l[0];
    }
  }

  lemma CleanedIsClean(s: string)
    ensures TenantText(Cleaned(s))
    ensures Cleaned(s) != "" ==> Cleaned(s)[0] != '-' && Cleaned(s)[|Cleaned(s)| - 1] != '-'
  {
    hide TenantText, TrimDashes, TrimSpace;
    ReplacedIsTenantText(TrimSpace(s));
    TrimDashesKeepsText(ReplaceOthers(TrimSpace(s)));
  }

  /** At most 64 characters of `[a-zA-Z0-9_-]`, never starting with a dash. */
  lemma SanitizedShape(s: string)
    ensures var t := SanitizeTenantID(s);
      && |t| <= 64 && TenantText(t) && (t != "" ==> t[0] != '-')
      && (|Cleaned(s)| <= 64 ==> t == Cleaned(s) && (t != "" ==> t[|t| - 1] != '-'))
      && (|Cleaned(s)| > 64 ==> t == Cleaned(s)[..64])
  {
    hide Cleaned, TrimSpace;
    if TrimSpace(s) == "" { BlankIsCleanedAway(s); }
    CleanedIsClean(s);
  }

  lemma SanitizeClean(t: string)
    requires TenantText(t) && |t| <= MAX_TENANT && (t != "" ==> t[0] != '-')
    ensures SanitizeTenantID(t) == TrimDashRight(t)
  {
    hide TrimSpace, ReplaceOthers;
    TenantTextIsTrimmed(t);
    ReplacedIsTenantText(t);
    assert TrimDashLeft(t) == t;
  }

  lemma TrimDashRightIff(t: string)
    ensures TrimDashRight(t) == t <==> t == "" || t[|t| - 1] != '-'
  {
    if t != "" && t[|t| - 1] == '-' {
      assert |TrimDashRight(t)| < |t|;
    }
  }

  /**
   Sanitising again changes nothing exactly when nothing had to be cut, or the cut does not fall right
   after a dash.
   */
  lemma SanitizeTwiceIff(s: string)
    ensures SanitizeTenantID(SanitizeTenantID(s)) == SanitizeTenantID(s) <==>
            |Cleaned(s)| <= 64 || Cleaned(s)[63] != '-'
  {
    hide TrimSpace, TrimDashes, ReplaceOthers, TrimDashRight;
    var t := SanitizeTenantID(s);
    CleanedIsClean(s);
    SanitizedShape(s);
    if TrimSpace(s) == "" { BlankIsCleanedAway(s); }
    SanitizeClean(t);
    TrimDashRightIff(t);
    assert |Cleaned(s)| > MAX_TENANT ==> t[|t| - 1] == Cleaned(s)[MAX_TENANT - 1];
  }

  lemma BlankIsCleanedAway(s: string)
    requires TrimSpace(s) == ""
    ensures Cleaned(s) == ""
  {
  }

  lemma CleanTextStays(s: string)
    requires s != "" && TenantText(s) && s[0] != '-' && s[|s| - 1] != '-'
    ensures Cleaned(s) == s
  {
    hide TrimSpace, ReplaceOthers;
    TenantTextIsTrimmed(s);
    ReplacedIsTenantText(s);
    hide TenantText;
    assert TrimDashLeft(s) == s && TrimDashRight(s) == s;
  }

  /** Such a cut exists: a clean text with a dash as its 64th character. */
  lemma CutCanLeaveADash(s: string)
    requires |s| > 64 && TenantText(s) && s[0] != '-' && s[|s| - 1] != '-' && s[63] == '-'
    ensures SanitizeTenantID(SanitizeTenantID(s)) != SanitizeTenantID(s)
  {
    hide SanitizeTenantID, Cleaned, TenantText;
    CleanTextStays(s);
    SanitizeTwiceIff(s);
  }

  /** A run of other characters between kept ones, however long, becomes exactly one dash. */
  lemma {:induction false} OthersBecomeOneDash(kept: string, others: string, rest: string)
    requires TenantText(kept) && others != [] && (forall i :: 0 <= i < |others| ==> !IsTenantChar(others[i]))
    requires rest == [] || IsTenantChar(rest[0])
    ensures ReplaceOthers(kept + others + rest) == kept + ['-'] + ReplaceOthers(rest)
  {
    var s := kept + others + rest;
    if kept == [] {
      assert s[1..] == others[1..] + rest;
      OthersAreSkipped(others[1..], rest);
      assert s[0] == others[0];
    } else {
      OthersBecomeOneDash(kept[1..], others, rest);
      assert s[1..] == kept[1..] + others + rest && s[0] == kept[0];
      assert kept == [kept[0]] + kept[1..];
    }
  }

  lemma {:induction false} OthersAreSkipped(others: string, rest: string)
    requires forall i :: 0 <= i < |others| ==> !IsTenantChar(others[i])
    requires rest == [] || IsTenantChar(rest[0])
    ensures SkipOthers(others + rest) == rest
  {
    if others == [] {
      assert others + rest == rest;
    } else {
      assert (others + rest)[1..] == others[1..] + rest;
      OthersAreSkipped(others[1..], rest);
    }
  }

  /** Task IDs of one tenant at different times differ. */
  lemma TimesTellTasksApart(tenantId: string, now: string, now': string)
    requires MakeTaskID(tenantId, now) == MakeTaskID(tenantId, now')
    ensures now == now'
  {
    hide SanitizeTenantID;
    var t := SanitizeTenantID(tenantId);
    var head := if t == "" then "task-" else "tenant-" + t + MARK;
    assert MakeTaskID(tenantId, now) == head + now && MakeTaskID(tenantId, now') == head + now';
    assert (head + now)[|head|..] == now && (head + now')[|head|..] == now';
  }

  // ---------- the round trip ----------

  predicate EndsWith(s: string, suffix: string) {
    |suffix| <= |s| && s[|s| - |suffix|..] == suffix
  }

  lemma MarkOverlaps(t: string, now: string, p: nat)
    requires p < |t| < p + 6 && OccursAt(t + MARK + now, p, MARK)
    ensures p == |t| - 5 && EndsWith(t, "-task")
  {
    var s, d := t + MARK + now, |t| - p;
    assert s[p..p + 6] == MARK;
    assert s[p..p + 6][d] == s[|t|] == MARK[0];
    assert MARK[1] == 't' && MARK[2] == 'a' && MARK[3] == 's' && MARK[4] == 'k';
    assert s[p..p + 6][..5] == MARK[..5] == "-task";
    assert t[p..] == s[p..p + 6][..5];
  }

  /**
   The parser finds the printer's own mark exactly when the tenant neither holds one nor ends in all but
   its last dash.
   */
  lemma FirstMarkIff(t: string, now: string)
    ensures FirstFrom(t + MARK + now, MARK, 0).Some?
    ensures FirstFrom(t + MARK + now, MARK, 0).value <= |t|
    ensures FirstFrom(t + MARK + now, MARK, 0).value == |t| <==> !Contains(t, MARK) && !EndsWith(t, "-task")
  {
    var s := t + MARK + now;
    assert OccursAt(s, |t|, MARK) by {
      assert s[|t|..|t| + 6] == MARK;
    }
    var p := FirstFrom(s, MARK, 0).value;
    if p < |t| {
      if p + 6 <= |t| {
        assert s[p..p + 6] == t[p..p + 6];
        assert OccursAt(t, p, MARK);
      } else {
        MarkOverlaps(t, now, p);
      }
    } else {
      forall i | 0 <= i <= |t| ensures !OccursAt(t, i, MARK) {
        if i + 6 <= |t| {
          assert s[i..i + 6] == t[i..i + 6];
          assert !OccursAt(s, i, MARK);
        }
      }
      if EndsWith(t, "-task") {
        TailWithDashIsMark(t, now);
      }
    }
  }

  lemma TailWithDashIsMark(t: string, now: string)
    requires EndsWith(t, "-task")
    ensures OccursAt(t + MARK + now, |t| - 5, MARK)
  {
    var s := t + MARK + now;
    assert s[|t| - 5..|t| + 1] == t[|t| - 5..] + [MARK[0]];
    assert "-task" + ['-'] == MARK;
  }

  lemma PrintedTenantParses(t: string, now: string)
    requires t != "" && TenantText(t)
    ensures TenantFromTaskID("tenant-" + t + MARK + now) == Some(t) <==>
            !Contains(t, MARK) && !EndsWith(t, "-task")
  {
    hide TrimSpace, Contains, EndsWith;
    var rest := t + MARK + now;
    var id := "tenant-" + t + MARK + now;
    assert id == "tenant-" + rest;
    assert id[7..] == rest;
    FirstMarkIff(t, now);
    TenantTextIsTrimmed(t);
    var p := FirstFrom(rest, MARK, 0).value;
    assert rest[..p] == t[..p];
    if p == |t| {
      assert t[..p] == t;
    } else {
      TrimSpaceShortens(t[..p]);
    }
  }

  lemma TrimSpaceShortens(s: string)
    ensures |TrimSpace(s)| <= |s|
  {
  }

  lemma NoTenantNoParse(now: string)
    ensures TenantFromTaskID("task-" + now) == None
  {
    assert ("task-" + now)[1] == 'a' && "tenant-"[1] == 'e';
  }

  /**
   The tenant comes back from its task ID exactly when its sanitised form is non-empty, does not
   contain `-task-` and does not end in `-task`, whatever the timestamp.
   */
  lemma TaskIdRoundTrip(tenantId: string, now: string)
    ensures var t := SanitizeTenantID(tenantId);
      TenantFromTaskID(MakeTaskID(tenantId, now)) == Some(t) <==>
      t != "" && !Contains(t, MARK) && !EndsWith(t, "-task")
  {
    hide SanitizeTenantID, TenantFromTaskID, Contains, EndsWith;
    var t := SanitizeTenantID(tenantId);
    NoTenantNoParse(now);
    if t != "" {
      SanitizedShape(tenantId);
      PrintedTenantParses(t, now);
    }
  }
}
