/** The text a command digest is taken of: the action, the project and the payload, with the keys of every
    object sorted. The keys of the closed payloads are names; keys that are array indices, which JavaScript
    would write first, do not occur in them. */
module CommandDigest {
  import opened Wrappers
  import opened Unicode
  import opened CanonicalJson
  import CommandApproval
  import Decimal
  import Utf8

  /** `JSON.stringify` of the record with its three members in this order, the payload made canonical. */
  function DigestTree(action: Text, projectId: Option<Text>, payload: Json): Tree
    requires WellFormed(payload)
  {
    TObject([
      Leaf(Ascii("action"), TString(action)),
      Leaf(Ascii("projectId"), if projectId.None? then TNull else TString(projectId.value)),
      Leaf(Ascii("payload"), Meaning(payload))])
  }

  function DigestText(action: Text, projectId: Option<Text>, payload: Json): Text
    requires WellFormed(payload)
  {
    Print(DigestTree(action, projectId, payload))
  }

  /** Two commands have the same digest text if and only if they name the same action and project and their
      payloads are equal up to key order and undefined properties. */
  lemma DigestDecides(a: Text, b: Text, p: Option<Text>, q: Option<Text>, x: Json, y: Json)
    requires Comparable(x) && Comparable(y)
    ensures DigestText(a, p, x) == DigestText(b, q, y) <==> a == b && p == q && Equivalent(x, y)
  {
    MeaningDecides(x, y);
    if DigestText(a, p, x) == DigestText(b, q, y) {
      var s, t := DigestTree(a, p, x), DigestTree(b, q, y);
      DigestTreeValid(a, p, x);
      DigestTreeValid(b, q, y);
      assert Print(s) + [] == Print(t) + [];
      PrintUnique(s, t, [], []);
      assert s.leaves[0] == t.leaves[0] && s.leaves[1] == t.leaves[1] && s.leaves[2] == t.leaves[2];
    }
  }

  lemma DigestTreeValid(a: Text, p: Option<Text>, x: Json)
    requires WellFormed(x)
    ensures ValidTree(DigestTree(a, p, x))
  {
    MeaningValid(x);
  }

  // ----- the closed payloads -----

  function CodePoints(s: string): (cps: seq<nat>)
    ensures |cps| == |s| && forall i :: 0 <= i < |cps| ==> Utf8.IsScalar(cps[i])
  {
    seq(|s|, i requires 0 <= i < |s| => s[i] as int)
  }

  /** A string as JavaScript holds it. */
  function Units(s: string): Text { Utf8.Utf16All(CodePoints(s)) }

  lemma FirstOfUtf16(cp: nat, rest: Text)
    requires Utf8.IsScalar(cp)
    ensures var t := Utf8.Utf16(cp) + rest;
      FirstPoint(t) == cp && CharUnits(t) == |Utf8.Utf16(cp)| && t[CharUnits(t)..] == rest
  {
    var u := Utf8.Utf16(cp);
    assert (u + rest)[|u|..] == rest;
    if cp >= 0x1_0000 {
      var k := cp - 0x1_0000;
      assert u == [0xD800 + k / 0x400, 0xDC00 + k % 0x400];
      assert k == k / 0x400 * 0x400 + k % 0x400;
    }
  }

  lemma {:induction false} PointsOfUtf16(cps: seq<nat>)
    requires forall i :: 0 <= i < |cps| ==> Utf8.IsScalar(cps[i])
    ensures Points(Utf8.Utf16All(cps)) == cps
  {
    if cps != [] {
      PointsOfUtf16(cps[1..]);
      FirstOfUtf16(cps[0], Utf8.Utf16All(cps[1..]));
      assert cps == [cps[0]] + cps[1..];
    }
  }

  lemma UnitsInjective(s: string, t: string)
    ensures Units(s) == Units(t) <==> s == t
  {
    PointsOfUtf16(CodePoints(s));
    PointsOfUtf16(CodePoints(t));
    if Units(s) == Units(t) {
      assert CodePoints(s) == CodePoints(t);
      forall i | 0 <= i < |s| ensures s[i] == t[i] { assert CodePoints(s)[i] == CodePoints(t)[i]; }
    }
  }

  function DigitText(s: string): (t: Text)
    requires forall i :: 0 <= i < |s| ==> Decimal.IsDigit(s[i])
    ensures |t| == |s| && forall i :: 0 <= i < |t| ==> t[i] == s[i] as int && 48 <= t[i] <= 57
  {
    seq(|s|, i requires 0 <= i < |s| && Decimal.IsDigit(s[i]) => s[i] as int)
  }

  function NumberText(n: int): (t: Text)
    ensures IsNumberText(t)
  {
    if n < 0 then [45] + DigitText(Decimal.Print(-n)) else DigitText(Decimal.Print(n))
  }

  lemma NatTextInjective(m: nat, n: nat)
    requires DigitText(Decimal.Print(m)) == DigitText(Decimal.Print(n))
    ensures m == n
  {
    var s, t := Decimal.Print(m), Decimal.Print(n);
    forall i | 0 <= i < |s| ensures s[i] == t[i] { assert DigitText(s)[i] == DigitText(t)[i]; }
    assert s == t;
    Decimal.PrintRead(m);
    Decimal.PrintRead(n);
  }

  lemma NumberTextInjective(m: int, n: int)
    ensures NumberText(m) == NumberText(n) <==> m == n
  {
    if NumberText(m) == NumberText(n) {
      assert (m < 0) == (NumberText(m)[0] == 45) && (n < 0) == (NumberText(n)[0] == 45);
      if m < 0 {
        assert NumberText(m)[1..] == DigitText(Decimal.Print(-m)) && NumberText(n)[1..] == DigitText(Decimal.Print(-n));
        NatTextInjective(-m, -n);
      } else {
        NatTextInjective(m, n);
      }
    }
  }

  function ActionName(a: CommandApproval.Action): Text {
    match a
    case ConnectionBegin => Ascii("github.connection.begin")
    case ConnectionRevoke => Ascii("github.connection.revoke")
    case IssueImport => Ascii("github.issue.import")
    case PullRequestCreate => Ascii("github.pull_request.create")
    case ProjectCreate => Ascii("project.create")
    case IntegrationMerge => Ascii("git.integration.merge")
    case IntegrationRebase => Ascii("git.integration.rebase")
    case IntegrationCherryPick => Ascii("git.integration.cherry_pick")
    case PushProtectedBranch => Ascii("git.push.protected_branch")
  }

  /** No two of the names are equally long. */
  lemma ActionNameInjective(a: CommandApproval.Action, b: CommandApproval.Action)
    ensures ActionName(a) == ActionName(b) <==> a == b
  {
    assert ActionName(a) == ActionName(b) ==> |ActionName(a)| == |ActionName(b)|;
  }

  function PayloadJson(p: CommandApproval.Payload): Json {
    match p
    case NoPayload => JObject([])
    case Issue(n) => JObject([Member(Ascii("issueNumber"), JNumber(Some(NumberText(n))))])
    case PullRequest(sessionId, title, draft) =>
      JObject([Member(Ascii("sessionId"), JString(Units(sessionId))), Member(Ascii("title"), JString(Units(title))),
               Member(Ascii("draft"), JBool(draft))])
    case Project(root, name) =>
      JObject([Member(Ascii("workspaceRootId"), JString(Units(root))), Member(Ascii("name"), JString(Units(name)))])
  }

  lemma KeysApart()
    ensures Ascii("title") != Ascii("draft")
  {
    assert Ascii("title")[0] != Ascii("draft")[0];
  }

  lemma PayloadComparable(p: CommandApproval.Payload)
    ensures Comparable(PayloadJson(p))
  {
    KeysApart();
  }

  lemma KeyOnce(ns: seq<Member>, i: nat, j: nat)
    requires WellFormed(JObject(ns)) && i < |ns| && j < |ns| && ns[i].key == ns[j].key
    ensures i == j
  {
  }

  /** A member of one object has its counterpart, found by its key, in an equivalent one. */
  lemma Counterpart(ms: seq<Member>, ns: seq<Member>, i: nat, j: nat)
    requires WellFormed(JObject(ns)) && Equivalent(JObject(ms), JObject(ns))
    requires i < |ms| && j < |ns| && Defined(ms, i) && ms[i].key == ns[j].key
    ensures Equivalent(ms[i].value, ns[j].value)
  {
    var k := EquivalentMember(ms, ns, i);
    KeyOnce(ns, k, j);
  }

  function MembersOf(p: CommandApproval.Payload): seq<Member> { PayloadJson(p).members }

  /** The first key tells the kinds of payload apart. */
  lemma KindsApart(p: CommandApproval.Payload, q: CommandApproval.Payload)
    requires Equivalent(PayloadJson(p), PayloadJson(q))
    ensures SameKind(p, q)
  {
    var ms, ns := MembersOf(p), MembersOf(q);
    if ms != [] {
      var j := EquivalentMember(ms, ns, 0);
      FirstKey(p, q, j);
    } else if ns != [] {
      var i := EquivalentKey(ms, ns, 0);
    }
  }

  lemma FirstKey(p: CommandApproval.Payload, q: CommandApproval.Payload, j: nat)
    requires MembersOf(p) != [] && j < |MembersOf(q)| && MembersOf(q)[j].key == MembersOf(p)[0].key
    ensures p.Issue? == q.Issue? && p.PullRequest? == q.PullRequest? && p.Project? == q.Project? && !q.NoPayload?
  {
    assert |MembersOf(q)[j].key| == |MembersOf(p)[0].key|;
  }

  lemma {:induction false} EquivalentSelf(p: CommandApproval.Payload)
    ensures Equivalent(PayloadJson(p), PayloadJson(p))
  {
    PayloadComparable(p);
    MeaningDecides(PayloadJson(p), PayloadJson(p));
  }

  predicate SameKind(p: CommandApproval.Payload, q: CommandApproval.Payload) {
    p.NoPayload? == q.NoPayload? && p.Issue? == q.Issue? && p.PullRequest? == q.PullRequest? && p.Project? == q.Project?
  }

  predicate IsScalar(v: Json) { v.JNumber? || v.JString? || v.JBool? }

  lemma KeysAgree(p: CommandApproval.Payload, q: CommandApproval.Payload, i: nat)
    requires SameKind(p, q) && i < |MembersOf(p)|
    ensures i < |MembersOf(q)| && MembersOf(p)[i].key == MembersOf(q)[i].key && IsScalar(MembersOf(p)[i].value)
  {
  }

  lemma ScalarsEqual(v: Json, w: Json)
    requires IsScalar(v) && Equivalent(v, w)
    ensures v == w
  {
  }

  lemma SameFields(p: CommandApproval.Payload, q: CommandApproval.Payload, i: nat)
    requires Equivalent(PayloadJson(p), PayloadJson(q)) && SameKind(p, q) && i < |MembersOf(p)|
    ensures i < |MembersOf(q)| && MembersOf(p)[i].value == MembersOf(q)[i].value
  {
    PayloadComparable(q);
    KeysAgree(p, q, i);
    Matched(MembersOf(p), MembersOf(q), i);
  }

  lemma Matched(ms: seq<Member>, ns: seq<Member>, i: nat)
    requires WellFormed(JObject(ns)) && Equivalent(JObject(ms), JObject(ns))
    requires i < |ms| && i < |ns| && ms[i].key == ns[i].key && IsScalar(ms[i].value)
    ensures ms[i].value == ns[i].value
  {
    Counterpart(ms, ns, i, i);
    ScalarsEqual(ms[i].value, ns[i].value);
  }

  lemma FieldsOfIssue(m: int, n: int)
    requires MembersOf(CommandApproval.Issue(m))[0].value == MembersOf(CommandApproval.Issue(n))[0].value
    ensures m == n
  {
    NumberTextInjective(m, n);
  }

  lemma FieldsOfPullRequest(p: CommandApproval.Payload, q: CommandApproval.Payload)
    requires p.PullRequest? && q.PullRequest?
    requires forall i :: 0 <= i < 3 ==> MembersOf(p)[i].value == MembersOf(q)[i].value
    ensures p == q
  {
    UnitsInjective(p.sessionId, q.sessionId);
    UnitsInjective(p.title, q.title);
    assert MembersOf(p)[0].value == MembersOf(q)[0].value;
    assert MembersOf(p)[1].value == MembersOf(q)[1].value;
    assert MembersOf(p)[2].value == MembersOf(q)[2].value;
  }

  lemma FieldsOfProject(p: CommandApproval.Payload, q: CommandApproval.Payload)
    requires p.Project? && q.Project?
    requires forall i :: 0 <= i < 2 ==> MembersOf(p)[i].value == MembersOf(q)[i].value
    ensures p == q
  {
    UnitsInjective(p.workspaceRootId, q.workspaceRootId);
    UnitsInjective(p.name, q.name);
    assert MembersOf(p)[0].value == MembersOf(q)[0].value;
    assert MembersOf(p)[1].value == MembersOf(q)[1].value;
  }

  /** Closed payloads are equal as JSON exactly when they are equal. */
  lemma PayloadDecides(p: CommandApproval.Payload, q: CommandApproval.Payload)
    ensures Equivalent(PayloadJson(p), PayloadJson(q)) <==> p == q
  {
    EquivalentSelf(p);
    if Equivalent(PayloadJson(p), PayloadJson(q)) { EquivalentPayloads(p, q); }
  }

  lemma EquivalentPayloads(p: CommandApproval.Payload, q: CommandApproval.Payload)
    requires Equivalent(PayloadJson(p), PayloadJson(q))
    ensures p == q
  {
    KindsApart(p, q);
    forall i | 0 <= i < |MembersOf(p)|
      ensures i < |MembersOf(q)| && MembersOf(p)[i].value == MembersOf(q)[i].value
    {
      SameFields(p, q, i);
    }
    match p
    case NoPayload =>
    case Issue(n) => FieldsOfIssue(n, q.issueNumber);
    case PullRequest(_, _, _) => FieldsOfPullRequest(p, q);
    case Project(_, _) => FieldsOfProject(p, q);
  }

  /** `commandDigestOf` before it is hashed. */
  function IntentText(i: CommandApproval.Intent): Text {
    PayloadComparable(i.payload);
    DigestText(ActionName(i.action), if i.projectId.None? then None else Some(Units(i.projectId.value)), PayloadJson(i.payload))
  }

  /** The digest text stands for exactly what the approval covers. */
  lemma DigestCovers(i: CommandApproval.Intent, j: CommandApproval.Intent)
    ensures IntentText(i) == IntentText(j) <==> CommandApproval.CommandDigestOf(i) == CommandApproval.CommandDigestOf(j)
  {
    var p := if i.projectId.None? then None else Some(Units(i.projectId.value));
    var q := if j.projectId.None? then None else Some(Units(j.projectId.value));
    PayloadComparable(i.payload);
    PayloadComparable(j.payload);
    DigestDecides(ActionName(i.action), ActionName(j.action), p, q, PayloadJson(i.payload), PayloadJson(j.payload));
    ActionNameInjective(i.action, j.action);
    PayloadDecides(i.payload, j.payload);
    if i.projectId.Some? && j.projectId.Some? { UnitsInjective(i.projectId.value, j.projectId.value); }
  }
}
