/**
 * Fraud screening (AIFraudDetectionService): the phone-number pattern, the
 * score of a registration request built from fixed weights and capped at
 * 100, and the screening of a whole group, whose pair count over NID
 * prefixes is a nested loop.
 *
 * The tables the service queries are given as values: the members as a map
 * from identity to `Registrant`, the groups as a map to `GroupRecord`.
 */
module Fraud {
  import opened Domain

  /** What the fraud checks read about a member. */
  datatype Registrant = Registrant(
    nid: string,
    phone: string,
    address: string,
    createdAt: Date,
    joinDate: Date,
    loanAmounts: seq<real>)   // the LoanAmount of each of the member's loans

  datatype GroupRecord = GroupRecord(createdAt: Date, members: seq<Registrant>)

  /** A registration to screen; the empty string stands for a missing (null or empty) text field. */
  datatype FraudRequest = FraudRequest(
    nid: string,
    phone: string,
    address: string,
    groupId: Option<Id>,
    memberId: Option<Id>)

  datatype Severity = Critical | High | Medium

  /**
   * The alerts, one constructor per alert type, carrying the figures the
   * alert's evidence sentence quotes.
   */
  datatype Alert =
    | DuplicateNid(nid: string)
    | InvalidPhone(phone: string)
    | DuplicatePhone(phone: string, members: nat)
    | SuspiciousAddress(members: nat)
    | RapidGroupFormation(members: nat)
    | NewMemberHighLoan(ageDays: real)
    | SameJoinDate(members: nat, day: int)
    | SimilarNids(pairs: nat)
    | SameAddress(address: string)

  function AlertSeverity(a: Alert): Severity
  {
    match a
    case DuplicateNid(_) => Critical
    case InvalidPhone(_) => Medium
    case DuplicatePhone(_, _) => High
    case SuspiciousAddress(_) => Medium
    case RapidGroupFormation(_) => High
    case NewMemberHighLoan(_) => High
    case SameJoinDate(_, _) => High
    case SimilarNids(_) => Critical
    case SameAddress(_) => Medium
  }

  /** What each alert adds to the fraud score. */
  function Weight(a: Alert): int
  {
    match a
    case DuplicateNid(_) => 40
    case InvalidPhone(_) => 15
    case DuplicatePhone(_, _) => 25
    case SuspiciousAddress(_) => 15
    case RapidGroupFormation(_) => 20
    case NewMemberHighLoan(_) => 25
    case SameJoinDate(_, _) => 30
    case SimilarNids(_) => 40
    case SameAddress(_) => 20
  }

  function TotalWeight(alerts: seq<Alert>): int
  {
    if alerts == [] then 0 else TotalWeight(alerts[..|alerts| - 1]) + Weight(alerts[|alerts| - 1])
  }

  /** `Math.Min(100, score)`. */
  function Cap(score: int): int
  {
    if score < 100 then score else 100
  }

  datatype FraudAction = Approve | Review | Investigate | Reject | Monitor

  function ActionText(a: FraudAction): string
  {
    match a
    case Approve => "APPROVE - No significant fraud indicators detected."
    case Review => "REVIEW - Some suspicious patterns detected. Verify documents carefully."
    case Investigate => "INVESTIGATE - Multiple fraud indicators. Conduct thorough investigation."
    case Reject => "REJECT - Critical fraud indicators detected. Do not proceed."
    case Monitor => "MONITOR - Some unusual patterns, monitor closely"
  }

  /** The action recommended for a request: thresholds 20, 50 and 75. */
  function RequestAction(score: int): (a: FraudAction)
    ensures a == Approve <==> score < 20
    ensures a == Review <==> 20 <= score < 50
    ensures a == Investigate <==> 50 <= score < 75
    ensures a == Reject <==> 75 <= score
  {
    if score < 20 then Approve else if score < 50 then Review else if score < 75 then Investigate else Reject
  }

  /**
   * The action recommended for a group: investigate from 50 on, monitor below.
   * (The investigate sentence for a group is "INVESTIGATE - Suspicious group
   * patterns detected"; the model keeps both as `Investigate`.)
   */
  function GroupAction(score: int): (a: FraudAction)
    ensures a == Investigate <==> score >= 50
    ensures a == Monitor <==> score < 50
  {
    if score >= 50 then Investigate else Monitor
  }

  datatype FraudResponse = FraudResponse(
    isSuspicious: bool,
    fraudScore: int,
    alerts: seq<Alert>,
    recommendedAction: FraudAction)

  // ---------------------------------------------------------------------------
  // The phone pattern

  /** `s.Replace(c, "")` for a one-character `c`. */
  function Without(s: string, c: char): (r: string)
    ensures |r| <= |s|
  {
    if s == [] then [] else (if s[0] == c then [] else [s[0]]) + Without(s[1..], c)
  }

  /** The phone number without its dashes and spaces. */
  function Clean(phone: string): string
  {
    Without(Without(phone, '-'), ' ')
  }

  /**
   * `ValidatePhonePatternAsync`: eleven characters starting with "01" once
   * dashes and spaces are gone (on an eleven-character string, starting with
   * "01" is having '0' and '1' as its first two characters).
   */
  function ValidPhone(phone: string): bool
  {
    if phone == "" then false
    else
      var c := Clean(phone);
      |c| == 11 && c[0] == '0' && c[1] == '1'
  }

  /** No occurrence of the removed character is left. */
  lemma {:induction false} WithoutRemoves(s: string, c: char)
    ensures forall k :: 0 <= k < |Without(s, c)| ==> Without(s, c)[k] != c
    decreases |s|
  {
    if s != [] {
      WithoutRemoves(s[1..], c);
    }
  }

  lemma {:induction false} WithoutAppend(a: string, b: string, c: char)
    ensures Without(a + b, c) == Without(a, c) + Without(b, c)
    decreases |a|
  {
    if a != [] {
      var h := if a[0] == c then [] else [a[0]];
      assert (a + b)[0] == a[0];
      assert (a + b)[1..] == a[1..] + b;
      WithoutAppend(a[1..], b, c);
      assert Without(a + b, c) == h + (Without(a[1..], c) + Without(b, c));
      assert Without(a, c) == h + Without(a[1..], c);
    } else {
      assert a + b == b;
    }
  }

  /** Removing a character that does not occur changes nothing. */
  lemma {:induction false} WithoutAbsent(s: string, c: char)
    requires forall k :: 0 <= k < |s| ==> s[k] != c
    ensures Without(s, c) == s
    decreases |s|
  {
    if s != [] {
      WithoutAbsent(s[1..], c);
    }
  }

  /** Removing a character keeps every other character, in order. */
  lemma {:induction false} WithoutKeeps(s: string, c: char, d: char)
    requires d != c
    ensures multiset(Without(s, c))[d] == multiset(s)[d]
    decreases |s|
  {
    if s != [] {
      assert s == [s[0]] + s[1..];
      WithoutKeeps(s[1..], c, d);
    }
  }

  /** Removing a character never brings back one that was absent. */
  lemma {:induction false} WithoutKeepsAbsence(s: string, c: char, d: char)
    requires forall k :: 0 <= k < |s| ==> s[k] != d
    ensures forall k :: 0 <= k < |Without(s, c)| ==> Without(s, c)[k] != d
    decreases |s|
  {
    if s != [] {
      WithoutKeepsAbsence(s[1..], c, d);
    }
  }

  /** A cleaned number has no separators left, keeps every other character, and cleaning it again changes nothing. */
  lemma CleanSeparators(phone: string, d: char)
    ensures forall k :: 0 <= k < |Clean(phone)| ==> Clean(phone)[k] != '-' && Clean(phone)[k] != ' '
    ensures Clean(Clean(phone)) == Clean(phone)
    ensures d != '-' && d != ' ' ==> multiset(Clean(phone))[d] == multiset(phone)[d]
  {
    var once := Without(phone, '-');
    var c := Clean(phone);
    WithoutRemoves(phone, '-');
    WithoutRemoves(once, ' ');
    WithoutKeepsAbsence(once, ' ', '-');
    WithoutAbsent(c, '-');
    WithoutAbsent(c, ' ');
    if d != '-' && d != ' ' {
      WithoutKeeps(phone, '-', d);
      WithoutKeeps(once, ' ', d);
    }
  }

  /** The pattern depends only on the cleaned number; the guard on the empty string is subsumed by the length test. */
  lemma {:induction false} ValidPhoneIff(phone: string)
    ensures ValidPhone(phone) <==> |Clean(phone)| == 11 && Clean(phone)[..2] == "01"
    ensures ValidPhone(phone) == ValidPhone(Clean(phone))
  {
    CleanSeparators(phone, '0');
    if phone == "" {
      assert Clean(phone) == "";
    }
    var c := Clean(phone);
    if |c| == 11 {
      assert c[..2] == "01" <==> c[0] == '0' && c[1] == '1';
    }
  }

  // ---------------------------------------------------------------------------
  // Screening one request

  function NidRegistered(members: map<Id, Registrant>, nid: string): bool
  {
    exists id :: id in members && members[id].nid == nid
  }

  /** Members with the phone, other than the requesting member (all of them when the request names none). */
  function PhoneCount(members: map<Id, Registrant>, phone: string, memberId: Option<Id>): nat
  {
    |set id | id in members && members[id].phone == phone && memberId != Some(id)|
  }

  function StartsWith(s: string, prefix: string): bool
  {
    |prefix| <= |s| && s[..|prefix|] == prefix
  }

  /** `s.Contains(part)`: `part` occurs in `s` at some position. */
  function Contains(s: string, part: string): bool
    decreases |s|
  {
    StartsWith(s, part) || (s != [] && Contains(s[1..], part))
  }

  /** The first ten characters of the address (all of it when shorter). */
  function AddressKey(address: string): string
  {
    address[..if |address| < 10 then |address| else 10]
  }

  function SimilarAddressCount(members: map<Id, Registrant>, address: string): nat
  {
    |set id | id in members && Contains(members[id].address, AddressKey(address))|
  }

  function HasLargeLoan(r: Registrant): bool
  {
    exists k :: 0 <= k < |r.loanAmounts| && r.loanAmounts[k] > 50000.0
  }

  function Lookup<T>(table: map<Id, T>, id: Option<Id>): Option<T>
  {
    if id.Some? && id.value in table then Some(table[id.value]) else None
  }

  /**
   * What the database queries of `DetectFraudAsync` return, as `Find`
   * defines them. A check whose request field is missing never looks at its
   * entry.
   */
  datatype Findings = Findings(
    nidRegistered: bool,        // some member already has the NID
    phoneShared: nat,           // members with the phone, other than the requester
    similarAddresses: nat,      // members whose address contains the first ten characters of the request's
    group: Option<GroupRecord>, // the request's group, when it names one that exists
    member: Option<Registrant>) // the request's member, when it names one that exists

  function Find(req: FraudRequest, members: map<Id, Registrant>, groups: map<Id, GroupRecord>): Findings
  {
    Findings(NidRegistered(members, req.nid), PhoneCount(members, req.phone, req.memberId),
      SimilarAddressCount(members, req.address), Lookup(groups, req.groupId), Lookup(members, req.memberId))
  }

  function NidAlerts(req: FraudRequest, f: Findings): seq<Alert>
  {
    if req.nid != "" && f.nidRegistered then [DuplicateNid(req.nid)] else []
  }

  function InvalidPhoneAlerts(req: FraudRequest): seq<Alert>
  {
    if req.phone != "" && !ValidPhone(req.phone) then [InvalidPhone(req.phone)] else []
  }

  function SharedPhoneAlerts(req: FraudRequest, f: Findings): seq<Alert>
  {
    if req.phone != "" && f.phoneShared > 2 then [DuplicatePhone(req.phone, f.phoneShared)] else []
  }

  function AddressAlerts(req: FraudRequest, f: Findings): seq<Alert>
  {
    if req.address != "" && f.similarAddresses > 10 then [SuspiciousAddress(f.similarAddresses)] else []
  }

  /** A group found, less than a day old, with at least five members. */
  function GroupAlerts(f: Findings, now: Date): seq<Alert>
  {
    match f.group
    case None => []
    case Some(g) => if now - g.createdAt < 1.0 && |g.members| >= 5 then [RapidGroupFormation(|g.members|)] else []
  }

  /** A member found, less than a week old, with some loan above 50000. */
  function MemberAlerts(f: Findings, now: Date): seq<Alert>
  {
    match f.member
    case None => []
    case Some(m) => if now - m.createdAt < 7.0 && HasLargeLoan(m) then [NewMemberHighLoan(now - m.createdAt)] else []
  }

  /** The alerts raised on what the queries found, in the order the checks run. */
  function AlertsOf(req: FraudRequest, f: Findings, now: Date): seq<Alert>
  {
    NidAlerts(req, f) + InvalidPhoneAlerts(req) + SharedPhoneAlerts(req, f) + AddressAlerts(req, f)
      + GroupAlerts(f, now) + MemberAlerts(f, now)
  }

  /** The alerts of `DetectFraudAsync`. */
  function RequestAlerts(req: FraudRequest, members: map<Id, Registrant>, groups: map<Id, GroupRecord>, now: Date): seq<Alert>
  {
    AlertsOf(req, Find(req, members, groups), now)
  }

  lemma {:induction false} TotalWeightAppend(a: seq<Alert>, b: seq<Alert>)
    ensures TotalWeight(a + b) == TotalWeight(a) + TotalWeight(b)
    decreases |b|
  {
    if b != [] {
      var ab := a + b;
      assert ab[|ab| - 1] == b[|b| - 1];
      assert ab[..|ab| - 1] == a + b[..|b| - 1];
      TotalWeightAppend(a, b[..|b| - 1]);
      assert TotalWeight(ab) == TotalWeight(ab[..|ab| - 1]) + Weight(ab[|ab| - 1]);
    } else {
      assert a + b == a;
    }
  }

  /**
   * `DetectFraudAsync`: each check that fires appends its alert and adds its
   * weight. The queries' results are `found`; for the tables `members` and
   * `groups` they are `Find(req, members, groups)`, and the alerts are then
   * `RequestAlerts(req, members, groups, now)`.
   */
  method DetectFraud(req: FraudRequest, found: Findings, now: Date) returns (r: FraudResponse)
    ensures r.alerts == AlertsOf(req, found, now)
    ensures r.fraudScore == Cap(TotalWeight(r.alerts))
    ensures r.isSuspicious <==> r.fraudScore >= 30
    ensures r.recommendedAction == RequestAction(r.fraudScore)
  {
    var alerts, fraudScore := TextChecks(req, found);
    alerts, fraudScore := RecordChecks(found, now, alerts, fraudScore);
    fraudScore := if fraudScore < 100 then fraudScore else 100;
    var recommendation;
    if fraudScore < 20 {
      recommendation := Approve;
    } else if fraudScore < 50 {
      recommendation := Review;
    } else if fraudScore < 75 {
      recommendation := Investigate;
    } else {
      recommendation := Reject;
    }
    r := FraudResponse(fraudScore >= 30, fraudScore, alerts, recommendation);
  }

  /** The NID, phone and address checks of `DetectFraudAsync`, each run only when its field is present. */
  method TextChecks(req: FraudRequest, f: Findings) returns (alerts: seq<Alert>, fraudScore: int)
    ensures alerts == NidAlerts(req, f) + InvalidPhoneAlerts(req) + SharedPhoneAlerts(req, f) + AddressAlerts(req, f)
    ensures fraudScore == TotalWeight(alerts)
  {
    alerts, fraudScore := [], 0;
    if req.nid != "" {
      var duplicateNid := f.nidRegistered;
      if duplicateNid {
        SingletonWeight(DuplicateNid(req.nid));
        alerts := alerts + [DuplicateNid(req.nid)];
        fraudScore := fraudScore + 40;
      }
    }
    alerts, fraudScore := PhoneChecks(req, f, alerts, fraudScore);
    alerts, fraudScore := AddressCheck(req, f, alerts, fraudScore);
  }

  /** The phone checks of `DetectFraudAsync`: the pattern, then the number of members sharing the number. */
  method PhoneChecks(req: FraudRequest, f: Findings, before: seq<Alert>, score: int) returns (alerts: seq<Alert>, fraudScore: int)
    requires score == TotalWeight(before)
    ensures alerts == before + InvalidPhoneAlerts(req) + SharedPhoneAlerts(req, f)
    ensures fraudScore == TotalWeight(alerts)
  {
    alerts, fraudScore := before, score;
    if req.phone != "" {
      var validPhone := ValidPhone(req.phone);
      if !validPhone {
        TotalWeightAppend(alerts, [InvalidPhone(req.phone)]);
        alerts := alerts + [InvalidPhone(req.phone)];
        fraudScore := fraudScore + 15;
      }
      var phoneCount := f.phoneShared;
      if phoneCount > 2 {
        TotalWeightAppend(alerts, [DuplicatePhone(req.phone, phoneCount)]);
        alerts := alerts + [DuplicatePhone(req.phone, phoneCount)];
        fraudScore := fraudScore + 25;
      }
    }
  }

  /** The address check of `DetectFraudAsync`: more than ten members at a similar address. */
  method AddressCheck(req: FraudRequest, f: Findings, before: seq<Alert>, score: int) returns (alerts: seq<Alert>, fraudScore: int)
    requires score == TotalWeight(before)
    ensures alerts == before + AddressAlerts(req, f)
    ensures fraudScore == TotalWeight(alerts)
  {
    alerts, fraudScore := before, score;
    if req.address != "" {
      var similarAddresses := f.similarAddresses;
      if similarAddresses > 10 {
        TotalWeightAppend(alerts, [SuspiciousAddress(similarAddresses)]);
        alerts := alerts + [SuspiciousAddress(similarAddresses)];
        fraudScore := fraudScore + 15;
      }
    }
  }

  /** The group and member checks of `DetectFraudAsync`, added to the alerts so far. */
  method RecordChecks(f: Findings, now: Date, before: seq<Alert>, score: int) returns (alerts: seq<Alert>, fraudScore: int)
    requires score == TotalWeight(before)
    ensures alerts == before + GroupAlerts(f, now) + MemberAlerts(f, now)
    ensures fraudScore == TotalWeight(alerts)
  {
    alerts, fraudScore := before, score;
    if f.group.Some? {
      var group := f.group.value;
      var groupAge := now - group.createdAt;
      if groupAge < 1.0 && |group.members| >= 5 {
        TotalWeightAppend(alerts, [RapidGroupFormation(|group.members|)]);
        alerts := alerts + [RapidGroupFormation(|group.members|)];
        fraudScore := fraudScore + 20;
      }
    }
    assert alerts == before + GroupAlerts(f, now);
    ghost var middle := alerts;
    if f.member.Some? {
      var member := f.member.value;
      var memberAge := now - member.createdAt;
      var hasLargeLoanRequest := HasLargeLoan(member);
      if memberAge < 7.0 && hasLargeLoanRequest {
        TotalWeightAppend(alerts, [NewMemberHighLoan(memberAge)]);
        alerts := alerts + [NewMemberHighLoan(memberAge)];
        fraudScore := fraudScore + 25;
      }
    }
    assert alerts == middle + MemberAlerts(f, now);
  }

  // ---------------------------------------------------------------------------
  // Properties of the request score

  lemma SingletonWeight(a: Alert)
    ensures TotalWeight([a]) == Weight(a)
  {
    assert [a][..0] == [];
  }

  /** At most one alert, of a weight between 0 and `bound`. */
  predicate AtMostOne(s: seq<Alert>, bound: int)
  {
    |s| <= 1 && (s != [] ==> 0 <= Weight(s[0]) <= bound)
  }

  lemma AtMostOneWeight(s: seq<Alert>, bound: int)
    requires AtMostOne(s, bound) && bound >= 0
    ensures 0 <= TotalWeight(s) <= bound
  {
    if s != [] {
      assert s == [s[0]];
      SingletonWeight(s[0]);
    }
  }

  /** The score of a request is the sum of what each check contributes. */
  lemma WeightParts(req: FraudRequest, f: Findings, now: Date)
    ensures TotalWeight(AlertsOf(req, f, now)) == TotalWeight(NidAlerts(req, f)) + TotalWeight(InvalidPhoneAlerts(req))
      + TotalWeight(SharedPhoneAlerts(req, f)) + TotalWeight(AddressAlerts(req, f))
      + TotalWeight(GroupAlerts(f, now)) + TotalWeight(MemberAlerts(f, now))
  {
    var n, p1, p2, a, g, m := NidAlerts(req, f), InvalidPhoneAlerts(req), SharedPhoneAlerts(req, f),
      AddressAlerts(req, f), GroupAlerts(f, now), MemberAlerts(f, now);
    TotalWeightAppend(n, p1);
    TotalWeightAppend(n + p1, p2);
    TotalWeightAppend(n + p1 + p2, a);
    TotalWeightAppend(n + p1 + p2 + a, g);
    TotalWeightAppend(n + p1 + p2 + a + g, m);
  }

  /**
   * Whatever the queries find, each check raises at most one alert, so the
   * alerts are at most six and their weights sum to at most 140: the cap at
   * 100 can bite, and the score lies in [0, 100].
   */
  lemma RequestScoreRange(req: FraudRequest, f: Findings, now: Date)
    ensures |AlertsOf(req, f, now)| <= 6
    ensures 0 <= TotalWeight(AlertsOf(req, f, now)) <= 140
    ensures 0 <= Cap(TotalWeight(AlertsOf(req, f, now))) <= 100
  {
    WeightParts(req, f, now);
    TextPiecesBounded(req, f);
    RecordPiecesBounded(f, now);
  }

  /** The NID, phone and address checks each contribute at most one alert and at most its own weight. */
  lemma TextPiecesBounded(req: FraudRequest, f: Findings)
    ensures |NidAlerts(req, f)| <= 1 && 0 <= TotalWeight(NidAlerts(req, f)) <= 40
    ensures |InvalidPhoneAlerts(req)| <= 1 && 0 <= TotalWeight(InvalidPhoneAlerts(req)) <= 15
    ensures |SharedPhoneAlerts(req, f)| <= 1 && 0 <= TotalWeight(SharedPhoneAlerts(req, f)) <= 25
    ensures |AddressAlerts(req, f)| <= 1 && 0 <= TotalWeight(AddressAlerts(req, f)) <= 15
  {
    AtMostOneWeight(NidAlerts(req, f), 40);
    AtMostOneWeight(InvalidPhoneAlerts(req), 15);
    AtMostOneWeight(SharedPhoneAlerts(req, f), 25);
    AtMostOneWeight(AddressAlerts(req, f), 15);
  }

  /** The group and member checks each contribute at most one alert and at most its own weight. */
  lemma RecordPiecesBounded(f: Findings, now: Date)
    ensures |GroupAlerts(f, now)| <= 1 && 0 <= TotalWeight(GroupAlerts(f, now)) <= 20
    ensures |MemberAlerts(f, now)| <= 1 && 0 <= TotalWeight(MemberAlerts(f, now)) <= 25
  {
    AtMostOneWeight(GroupAlerts(f, now), 20);
    AtMostOneWeight(MemberAlerts(f, now), 25);
  }

  /** The score is exactly the sum of the weights of the checks that fire, capped at 100. */
  lemma RequestScoreFormula(req: FraudRequest, f: Findings, now: Date)
    ensures TotalWeight(AlertsOf(req, f, now)) ==
      (if req.nid != "" && f.nidRegistered then 40 else 0)
      + (if req.phone != "" && !ValidPhone(req.phone) then 15 else 0)
      + (if req.phone != "" && f.phoneShared > 2 then 25 else 0)
      + (if req.address != "" && f.similarAddresses > 10 then 15 else 0)
      + (if f.group.Some? && now - f.group.value.createdAt < 1.0 && |f.group.value.members| >= 5 then 20 else 0)
      + (if f.member.Some? && now - f.member.value.createdAt < 7.0 && HasLargeLoan(f.member.value) then 25 else 0)
  {
    WeightParts(req, f, now);
    TextPieceWeights(req, f);
    RecordPieceWeights(f, now);
  }

  lemma TextPieceWeights(req: FraudRequest, f: Findings)
    ensures TotalWeight(NidAlerts(req, f)) == if req.nid != "" && f.nidRegistered then 40 else 0
    ensures TotalWeight(InvalidPhoneAlerts(req)) == if req.phone != "" && !ValidPhone(req.phone) then 15 else 0
    ensures TotalWeight(SharedPhoneAlerts(req, f)) == if req.phone != "" && f.phoneShared > 2 then 25 else 0
    ensures TotalWeight(AddressAlerts(req, f)) == if req.address != "" && f.similarAddresses > 10 then 15 else 0
  {
    SingletonWeight(DuplicateNid(req.nid));
    SingletonWeight(InvalidPhone(req.phone));
    SingletonWeight(DuplicatePhone(req.phone, f.phoneShared));
    SingletonWeight(SuspiciousAddress(f.similarAddresses));
  }

  lemma RecordPieceWeights(f: Findings, now: Date)
    ensures TotalWeight(GroupAlerts(f, now)) ==
      if f.group.Some? && now - f.group.value.createdAt < 1.0 && |f.group.value.members| >= 5 then 20 else 0
    ensures TotalWeight(MemberAlerts(f, now)) ==
      if f.member.Some? && now - f.member.value.createdAt < 7.0 && HasLargeLoan(f.member.value) then 25 else 0
  {
    if f.group.Some? {
      SingletonWeight(RapidGroupFormation(|f.group.value.members|));
    }
    if f.member.Some? {
      SingletonWeight(NewMemberHighLoan(now - f.member.value.createdAt));
    }
  }

  /** A field missing from the request raises none of the alerts that field drives. */
  lemma AbsentFieldsContributeNothing(req: FraudRequest, members: map<Id, Registrant>, groups: map<Id, GroupRecord>, now: Date)
    ensures var f := Find(req, members, groups);
      && (req.nid == "" ==> NidAlerts(req, f) == [])
      && (req.phone == "" ==> InvalidPhoneAlerts(req) == [] && SharedPhoneAlerts(req, f) == [])
      && (req.address == "" ==> AddressAlerts(req, f) == [])
      && (req.groupId.None? ==> GroupAlerts(f, now) == [])
      && (req.memberId.None? ==> MemberAlerts(f, now) == [])
    ensures req == FraudRequest("", "", "", None, None) ==> RequestAlerts(req, members, groups, now) == []
  {
  }

  /** A registered NID alone already puts the request under review. */
  lemma DuplicateNidScore(req: FraudRequest, f: Findings, now: Date)
    requires req.nid != "" && f.nidRegistered
    ensures Cap(TotalWeight(AlertsOf(req, f, now))) >= 40
    ensures RequestAction(Cap(TotalWeight(AlertsOf(req, f, now)))) != Approve
  {
    WeightParts(req, f, now);
    SingletonWeight(DuplicateNid(req.nid));
    NonNegative(InvalidPhoneAlerts(req));
    NonNegative(SharedPhoneAlerts(req, f));
    NonNegative(AddressAlerts(req, f));
    NonNegative(GroupAlerts(f, now));
    NonNegative(MemberAlerts(f, now));
  }

  lemma {:induction false} NonNegative(alerts: seq<Alert>)
    ensures TotalWeight(alerts) >= 0
    decreases |alerts|
  {
    if alerts != [] {
      NonNegative(alerts[..|alerts| - 1]);
    }
  }

  // ---------------------------------------------------------------------------
  // Screening a group

  /** Two NIDs agree on their first eight characters (`Substring(0, 8)`, defined only on NIDs that long). */
  predicate Similar(a: string, b: string)
  {
    |a| >= 8 && |b| >= 8 && a[..8] == b[..8]
  }

  /** The inner loop's count: the k with i < k < j whose NID is similar to the i-th. */
  function RowCount(nids: seq<string>, i: nat, j: nat): nat
    requires i < |nids| && j <= |nids|
    decreases j
  {
    if j <= i + 1 then 0 else RowCount(nids, i, j - 1) + (if Similar(nids[i], nids[j - 1]) then 1 else 0)
  }

  /** The similar pairs whose first index is below `i`. */
  function PairCount(nids: seq<string>, i: nat): nat
    requires i <= |nids|
  {
    if i == 0 then 0 else PairCount(nids, i - 1) + RowCount(nids, i - 1, |nids|)
  }

  function SimilarPairs(nids: seq<string>): nat
  {
    PairCount(nids, |nids|)
  }

  /** The loop reads `Substring(0, 8)` of every NID once there are two of them, and fails on a shorter one. */
  predicate HasShortNid(nids: seq<string>)
  {
    |nids| >= 2 && exists k :: 0 <= k < |nids| && |nids[k]| < 8
  }

  function Nids(members: seq<Registrant>): (nids: seq<string>)
    ensures |nids| == |members| && forall k :: 0 <= k < |members| ==> nids[k] == members[k].nid
  {
    seq(|members|, k requires 0 <= k < |members| => members[k].nid)
  }

  function JoinDays(members: seq<Registrant>): set<int>
  {
    set m | m in members :: m.joinDate.Floor
  }

  function Addresses(members: seq<Registrant>): set<string>
  {
    set m | m in members :: m.address
  }

  function JoinAlerts(members: seq<Registrant>): seq<Alert>
  {
    if |JoinDays(members)| == 1 && |members| >= 5 then [SameJoinDate(|members|, members[0].joinDate.Floor)] else []
  }

  function NidPairAlerts(pairs: nat): seq<Alert>
  {
    if pairs > 0 then [SimilarNids(pairs)] else []
  }

  function AddressAlertsOf(members: seq<Registrant>): seq<Alert>
  {
    if |Addresses(members)| == 1 then [SameAddress(members[0].address)] else []
  }

  /** The alerts of `DetectSuspiciousGroupAsync` for a group whose NIDs can all be read. */
  function GroupScreenAlerts(members: seq<Registrant>): seq<Alert>
  {
    JoinAlerts(members) + NidPairAlerts(SimilarPairs(Nids(members))) + AddressAlertsOf(members)
  }

  lemma {:induction false} RowCountPositive(nids: seq<string>, i: nat, j: nat)
    requires i < |nids| && j <= |nids|
    ensures RowCount(nids, i, j) > 0 <==> exists k :: i < k < j && Similar(nids[i], nids[k])
    decreases j
  {
    if j > i + 1 {
      RowCountPositive(nids, i, j - 1);
    }
  }

  lemma {:induction false} PairCountPositive(nids: seq<string>, i: nat)
    requires i <= |nids|
    ensures PairCount(nids, i) > 0 <==> exists a, b :: 0 <= a < i && a < b < |nids| && Similar(nids[a], nids[b])
    decreases i
  {
    if i > 0 {
      PairCountPositive(nids, i - 1);
      RowCountPositive(nids, i - 1, |nids|);
    }
  }

  /** The pair count is positive exactly when two members' NIDs share their first eight characters. */
  lemma SimilarPairsPositive(nids: seq<string>)
    ensures SimilarPairs(nids) > 0 <==> exists a, b :: 0 <= a < b < |nids| && Similar(nids[a], nids[b])
  {
    PairCountPositive(nids, |nids|);
  }

  /** `DetectSuspiciousGroupAsync`. */
  method DetectSuspiciousGroup(groupId: Id, groups: map<Id, GroupRecord>) returns (r: Result<FraudResponse>)
    ensures groupId !in groups ==> r == Err(NotFound("Group"))
    ensures groupId in groups && HasShortNid(Nids(groups[groupId].members)) ==> r == Err(OutOfRange)
    ensures groupId in groups && !HasShortNid(Nids(groups[groupId].members)) ==>
      var alerts := GroupScreenAlerts(groups[groupId].members);
      var score := Cap(TotalWeight(alerts));
      r == Ok(FraudResponse(score >= 30, score, alerts, GroupAction(score)))
  {
    if groupId !in groups {
      return Err(NotFound("Group"));
    }
    var group := groups[groupId];
    var nids := Nids(group.members);
    var counted := CountSimilarNids(nids);
    if counted.Err? {
      return Err(counted.error);
    }
    var alerts, fraudScore := GroupPatterns(group.members, counted.value);
    fraudScore := if fraudScore < 100 then fraudScore else 100;
    r := Ok(FraudResponse(fraudScore >= 30, fraudScore, alerts, if fraudScore >= 50 then Investigate else Monitor));
  }

  /** The three group patterns, given the number of similar NID pairs, with the alerts' total weight. */
  method GroupPatterns(members: seq<Registrant>, similarNidCount: nat) returns (alerts: seq<Alert>, fraudScore: int)
    ensures alerts == JoinAlerts(members) + NidPairAlerts(similarNidCount) + AddressAlertsOf(members)
    ensures fraudScore == TotalWeight(alerts)
  {
    alerts, fraudScore := [], 0;
    var joinDates := JoinDays(members);
    if |joinDates| == 1 && |members| >= 5 {
      TotalWeightAppend(alerts, [SameJoinDate(|members|, members[0].joinDate.Floor)]);
      alerts := alerts + [SameJoinDate(|members|, members[0].joinDate.Floor)];
      fraudScore := fraudScore + 30;
    }
    assert alerts == JoinAlerts(members);
    if similarNidCount > 0 {
      TotalWeightAppend(alerts, [SimilarNids(similarNidCount)]);
      alerts := alerts + [SimilarNids(similarNidCount)];
      fraudScore := fraudScore + 40;
    }
    assert alerts == JoinAlerts(members) + NidPairAlerts(similarNidCount);
    ghost var before := alerts;
    var addresses := Addresses(members);
    if |addresses| == 1 {
      TotalWeightAppend(alerts, [SameAddress(members[0].address)]);
      alerts := alerts + [SameAddress(members[0].address)];
      fraudScore := fraudScore + 20;
    }
    assert alerts == before + AddressAlertsOf(members);
  }

  /**
   * The nested loop over the pairs i < j. It fails, as `Substring(0, 8)` does,
   * on the first NID shorter than eight characters that it reads, and
   * otherwise counts the similar pairs.
   */
  method CountSimilarNids(nids: seq<string>) returns (r: Result<nat>)
    ensures HasShortNid(nids) ==> r == Err(OutOfRange)
    ensures !HasShortNid(nids) ==> r == Ok(SimilarPairs(nids))
  {
    var similarNidCount := 0;
    var n := |nids|;
    var i := 0;
    while i < n - 1
      invariant 0 <= i <= n && (n >= 1 ==> i <= n - 1)
      invariant i > 0 ==> forall k :: 0 <= k < n ==> |nids[k]| >= 8
      invariant similarNidCount == PairCount(nids, i)
    {
      var j := i + 1;
      while j < n
        invariant i + 1 <= j <= n
        invariant i == 0 ==> forall k :: 0 < k < j ==> |nids[k]| >= 8
        invariant |nids[i]| >= 8 || j == i + 1
        invariant similarNidCount == PairCount(nids, i) + RowCount(nids, i, j)
      {
        if |nids[i]| < 8 || |nids[j]| < 8 {
          return Err(OutOfRange);
        }
        if nids[i][..8] == nids[j][..8] {
          similarNidCount := similarNidCount + 1;
        }
        j := j + 1;
      }
      i := i + 1;
    }
    if n >= 1 {
      assert RowCount(nids, n - 1, n) == 0;
      assert PairCount(nids, n) == PairCount(nids, n - 1);
    }
    r := Ok(similarNidCount);
  }

  // ---------------------------------------------------------------------------
  // Properties of the group score

  /**
   * The group score is 30, 40 and 20 for the three patterns that hold; it
   * never exceeds 90, so the cap at 100 never bites.
   */
  lemma GroupScoreFormula(members: seq<Registrant>)
    ensures TotalWeight(GroupScreenAlerts(members)) ==
      (if |JoinDays(members)| == 1 && |members| >= 5 then 30 else 0)
      + (if SimilarPairs(Nids(members)) > 0 then 40 else 0)
      + (if |Addresses(members)| == 1 then 20 else 0)
    ensures Cap(TotalWeight(GroupScreenAlerts(members))) == TotalWeight(GroupScreenAlerts(members)) <= 90
  {
    var pairs := SimilarPairs(Nids(members));
    var a := if |JoinDays(members)| == 1 && |members| >= 5 then [SameJoinDate(|members|, members[0].joinDate.Floor)] else [];
    var b := if pairs > 0 then [SimilarNids(pairs)] else [];
    var c := if |Addresses(members)| == 1 then [SameAddress(members[0].address)] else [];
    TotalWeightAppend(a, b);
    TotalWeightAppend(a + b, c);
  }

  /** A one-member group always "shares one address": it scores 20 and is only monitored. */
  lemma SingleMemberGroup(m: Registrant)
    ensures !HasShortNid(Nids([m]))
    ensures GroupScreenAlerts([m]) == [SameAddress(m.address)]
    ensures TotalWeight(GroupScreenAlerts([m])) == 20
  {
    assert Addresses([m]) == {m.address};
    var nids := Nids([m]);
    assert |nids| == 1 && RowCount(nids, 0, 1) == 0;
    assert PairCount(nids, 1) == 0;
  }
}
