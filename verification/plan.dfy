/** Planning a send: candidates, and the greedy split under a budget. */
module Plan {
  import opened Domain
  import Template
  import Sums

  // strings.TrimSpace followed by the ten-digit rule.
  predicate IsSpace(c: char) {
    || c == ' ' || '\t' <= c <= '\r' || c == '\U{85}' || c == '\U{A0}' || c == '\U{1680}'
    || '\U{2000}' <= c <= '\U{200A}' || c == '\U{2028}' || c == '\U{2029}' || c == '\U{202F}'
    || c == '\U{205F}' || c == '\U{3000}'
  }

  function TrimSpace(s: string): string {
    if s != "" && IsSpace(s[0]) then TrimSpace(s[1..])
    else if s != "" && IsSpace(s[|s| - 1]) then TrimSpace(s[..|s| - 1])
    else s
  }

  predicate IsValidMobile(mobile: string) {
    var t := TrimSpace(mobile);
    10 <= |t| && forall i :: 0 <= i < |t| ==> '0' <= t[i] <= '9'
  }

  function RejectedMessage(userId: int, recipient: string, kind: MessageType, mode: DeliveryMode,
                           text: string, code: ErrorCode): Message {
    Message(0, userId, recipient, kind, mode, text, 0, MessageRejected, Some(code), 0)
  }

  function QueuedMessage(cfg: Config, userId: int, recipient: string, kind: MessageType, mode: DeliveryMode,
                         text: string): Message {
    Message(0, userId, recipient, kind, mode, text, cfg.smsCost, MessageQueued, None, 0)
  }

  // The OTP text depends on the order in which the variables are visited.
  ghost predicate IsOtpCandidate(cfg: Config, userId: int, otp: OtpPayload, r: OtpRecipient, m: Message) {
    if !IsValidMobile(r.mobile) then
      m == RejectedMessage(userId, r.mobile, TypeOtp, otp.mode, "", InvalidMobile)
    else
      exists order ::
        && Template.IsOrder(r.variables, order)
        && m == QueuedMessage(cfg, userId, r.mobile, TypeOtp, otp.mode,
                              Template.RenderInOrder(otp.template, r.variables, order))
  }

  function TextCandidate(cfg: Config, userId: int, text: TextPayload, mobile: string): Message {
    if !IsValidMobile(mobile) then RejectedMessage(userId, mobile, TypeText, text.mode, text.text, InvalidMobile)
    else QueuedMessage(cfg, userId, mobile, TypeText, text.mode, text.text)
  }

  function OtpCount(cmd: SendRequest): nat {
    if cmd.otp.Some? then |cmd.otp.value.recipients| else 0
  }

  function TextCount(cmd: SendRequest): nat {
    if cmd.text.Some? then |cmd.text.value.recipients| else 0
  }

  // One candidate a recipient: the OTP recipients first, then the text recipients.
  ghost predicate AreCandidates(cfg: Config, cmd: SendRequest, cs: seq<Message>) {
    && |cs| == OtpCount(cmd) + TextCount(cmd)
    && (forall i :: 0 <= i < OtpCount(cmd) ==>
          IsOtpCandidate(cfg, cmd.userId, cmd.otp.value, cmd.otp.value.recipients[i], cs[i]))
    && (forall i :: 0 <= i < TextCount(cmd) ==>
          cs[OtpCount(cmd) + i] == TextCandidate(cfg, cmd.userId, cmd.text.value, cmd.text.value.recipients[i]))
  }

  // All recipients of a command, in the order of their candidates.
  function Mobiles(cmd: SendRequest): (ms: seq<string>)
    ensures |ms| == OtpCount(cmd) + TextCount(cmd)
  {
    seq(OtpCount(cmd), i requires 0 <= i < OtpCount(cmd) => cmd.otp.value.recipients[i].mobile)
    + if cmd.text.Some? then cmd.text.value.recipients else []
  }

  function ValidCount(mobiles: seq<string>): nat {
    if mobiles == [] then 0
    else ValidCount(mobiles[..|mobiles| - 1]) + if IsValidMobile(mobiles[|mobiles| - 1]) then 1 else 0
  }

  // Every command has candidates: a map can always be visited.
  ghost function SomeOrder(vars: map<string, string>, keys: set<string>): (order: seq<string>)
    requires keys <= vars.Keys
    ensures (forall k :: k in order <==> k in keys) && (forall i, j :: 0 <= i < j < |order| ==> order[i] != order[j])
    decreases |keys|
  {
    if keys == {} then []
    else
      var k := Sums.Pick(keys);
      SomeOrder(vars, keys - {k}) + [k]
  }

  ghost function OtpCandidate(cfg: Config, userId: int, otp: OtpPayload, r: OtpRecipient): (m: Message)
    ensures IsOtpCandidate(cfg, userId, otp, r, m)
  {
    if !IsValidMobile(r.mobile) then RejectedMessage(userId, r.mobile, TypeOtp, otp.mode, "", InvalidMobile)
    else
      var order := SomeOrder(r.variables, r.variables.Keys);
      assert Template.IsOrder(r.variables, order);
      QueuedMessage(cfg, userId, r.mobile, TypeOtp, otp.mode, Template.RenderInOrder(otp.template, r.variables, order))
  }

  ghost function SomeCandidates(cfg: Config, cmd: SendRequest): (cs: seq<Message>)
    ensures AreCandidates(cfg, cmd, cs)
  {
    seq(OtpCount(cmd), i requires 0 <= i < OtpCount(cmd) =>
      OtpCandidate(cfg, cmd.userId, cmd.otp.value, cmd.otp.value.recipients[i]))
    + seq(TextCount(cmd), i requires 0 <= i < TextCount(cmd) =>
        TextCandidate(cfg, cmd.userId, cmd.text.value, cmd.text.value.recipients[i]))
  }

  // Go divides toward zero.
  function GoDiv(a: int, b: Pos): int {
    if 0 <= a then a / b else -((-a) / b)
  }

  function Affordable(cfg: Config, available: int): nat {
    var n := GoDiv(available, cfg.smsCost);
    if n < 0 then 0 else n
  }

  datatype Planned = Planned(payable: seq<Message>, skipped: seq<MessageResult>, rejectedCount: int, skippedCount: int)

  // The answer line of a candidate that is not stored.
  function SkipLine(m: Message): MessageResult {
    if m.status.MessageRejected? then ToMessageResult(0, m)
    else ToMessageResult(0, m.(status := MessageRejected, errorCode := Some(InsufficientBalance), cost := 0))
  }

  function Place(p: Planned, affordable: nat, m: Message): Planned {
    if m.status.MessageRejected? then
      p.(rejectedCount := p.rejectedCount + 1, skipped := p.skipped + [SkipLine(m)])
    else if |p.payable| < affordable then
      p.(payable := p.payable + [m])
    else
      p.(skippedCount := p.skippedCount + 1, skipped := p.skipped + [SkipLine(m)])
  }

  function Split(cs: seq<Message>, affordable: nat): Planned {
    if cs == [] then Planned([], [], 0, 0)
    else Place(Split(cs[..|cs| - 1], affordable), affordable, cs[|cs| - 1])
  }

  function TotalCost(cfg: Config, p: Planned): int {
    |p.payable| * cfg.smsCost
  }

  function Min(a: nat, b: nat): nat { if a < b then a else b }

  // The candidates that passed validation, in order.
  function Sendable(cs: seq<Message>): seq<Message> {
    if cs == [] then []
    else Sendable(cs[..|cs| - 1]) + if cs[|cs| - 1].status.MessageRejected? then [] else [cs[|cs| - 1]]
  }

  /** Payable is exactly the longest affordable prefix of the valid candidates. */
  lemma {:induction false} PayableIsAffordablePrefix(cs: seq<Message>, affordable: nat)
    ensures var valid := Sendable(cs);
            Split(cs, affordable).payable == valid[..Min(affordable, |valid|)]
    decreases |cs|
  {
    if cs != [] {
      var front := cs[..|cs| - 1];
      PayableIsAffordablePrefix(front, affordable);
      var valid := Sendable(front);
      assert (valid + [cs[|cs| - 1]])[..Min(affordable, |valid|)] == valid[..Min(affordable, |valid|)];
    }
  }

  /** Where every candidate goes: payable and skipped share out the input and both keep its order. */
  lemma {:induction false} EveryCandidatePlaced(cs: seq<Message>, affordable: nat, i: nat)
    requires i < |cs|
    ensures var p := Split(cs, affordable);
            var before := |Sendable(cs[..i])|;
            && |p.payable| + |p.skipped| == |cs|
            && (if !cs[i].status.MessageRejected? && before < affordable
                then before < |p.payable| && p.payable[before] == cs[i]
                else 0 <= i - Min(before, affordable) < |p.skipped|
                     && p.skipped[i - Min(before, affordable)] == SkipLine(cs[i]))
    decreases |cs|
  {
    var n := |cs| - 1;
    var front := cs[..n];
    PayableIsAffordablePrefix(front, affordable);
    SplitSizes(front, affordable);
    SplitSizes(cs, affordable);
    if i < n {
      assert front[..i] == cs[..i];
      EveryCandidatePlaced(front, affordable, i);
    }
  }

  lemma {:induction false} SplitSizes(cs: seq<Message>, affordable: nat)
    ensures var p := Split(cs, affordable);
            && |p.payable| + |p.skipped| == |cs|
            && |p.payable| == Min(affordable, |Sendable(cs)|)
            && p.rejectedCount == |cs| - |Sendable(cs)|
            && p.skippedCount == |Sendable(cs)| - |p.payable|
    decreases |cs|
  {
    if cs != [] { SplitSizes(cs[..|cs| - 1], affordable); }
  }

  /** The split stays inside the budget and cannot be extended: either every valid candidate
      is accepted or one more would not be affordable. */
  lemma SplitIsOptimal(cfg: Config, cs: seq<Message>, available: int)
    requires 0 <= available
    ensures var p := Split(cs, Affordable(cfg, available));
            && 0 <= TotalCost(cfg, p) <= available
            && (|p.payable| == |Sendable(cs)| || available < TotalCost(cfg, p) + cfg.smsCost)
  {
    SplitSizes(cs, Affordable(cfg, available));
    var p := Split(cs, Affordable(cfg, available));
    var q := Affordable(cfg, available);
    DivBounds(available, cfg.smsCost);
    MulOrder(|p.payable|, q, cfg.smsCost);
  }

  lemma DivBounds(a: nat, c: Pos)
    ensures a / c * c <= a < a / c * c + c
  {
  }

  lemma MulOrder(a: nat, b: nat, c: Pos)
    requires a <= b
    ensures 0 <= a * c <= b * c
  {
    assert b * c - a * c == (b - a) * c;
  }

  // Each payable message costs the flat price and is queued for the sender.
  lemma {:induction false} SendableContents(cfg: Config, cmd: SendRequest, cs: seq<Message>, n: nat)
    requires AreCandidates(cfg, cmd, cs) && n <= |cs|
    ensures forall m :: m in Sendable(cs[..n]) ==>
              m.userId == cmd.userId && m.cost == cfg.smsCost && m.status.MessageQueued? && m.errorCode.None?
  {
    if n != 0 {
      SendableContents(cfg, cmd, cs, n - 1);
      assert cs[..n][..n - 1] == cs[..n - 1];
      var last := cs[n - 1];
      if n - 1 < OtpCount(cmd) {
        assert IsOtpCandidate(cfg, cmd.userId, cmd.otp.value, cmd.otp.value.recipients[n - 1], last);
      } else {
        var i := n - 1 - OtpCount(cmd);
        assert cs[OtpCount(cmd) + i] == TextCandidate(cfg, cmd.userId, cmd.text.value, cmd.text.value.recipients[i]);
      }
    }
  }

  lemma PayableContents(cfg: Config, cmd: SendRequest, cs: seq<Message>, affordable: nat)
    requires AreCandidates(cfg, cmd, cs)
    ensures forall m :: m in Split(cs, affordable).payable ==>
              m.userId == cmd.userId && m.cost == cfg.smsCost && m.status.MessageQueued? && m.errorCode.None?
  {
    assert cs[..|cs|] == cs;
    SendableContents(cfg, cmd, cs, |cs|);
    PayableIsAffordablePrefix(cs, affordable);
  }

  // A candidate is rejected exactly when its recipient is invalid.
  lemma CandidateValid(cfg: Config, cmd: SendRequest, cs: seq<Message>, i: nat)
    requires AreCandidates(cfg, cmd, cs) && i < |cs|
    ensures cs[i].status.MessageRejected? <==> !IsValidMobile(Mobiles(cmd)[i])
  {
    hide IsValidMobile;
    if i < OtpCount(cmd) {
      assert IsOtpCandidate(cfg, cmd.userId, cmd.otp.value, cmd.otp.value.recipients[i], cs[i]);
    } else {
      var j := i - OtpCount(cmd);
      assert cs[OtpCount(cmd) + j] == TextCandidate(cfg, cmd.userId, cmd.text.value, cmd.text.value.recipients[j]);
    }
  }

  /** The sendable candidates are as many as the command has valid recipients. */
  lemma {:induction false} SendableCount(cfg: Config, cmd: SendRequest, cs: seq<Message>, n: nat)
    requires AreCandidates(cfg, cmd, cs) && n <= |cs|
    ensures |Sendable(cs[..n])| == ValidCount(Mobiles(cmd)[..n])
  {
    hide AreCandidates, IsValidMobile, Mobiles;
    CandidatesLength(cfg, cmd, cs);
    if n != 0 {
      SendableCount(cfg, cmd, cs, n - 1);
      CandidateValid(cfg, cmd, cs, n - 1);
      assert cs[..n][..n - 1] == cs[..n - 1] && Mobiles(cmd)[..n][..n - 1] == Mobiles(cmd)[..n - 1];
    }
  }

  lemma CandidatesLength(cfg: Config, cmd: SendRequest, cs: seq<Message>)
    requires AreCandidates(cfg, cmd, cs)
    ensures |cs| == |Mobiles(cmd)|
  {
  }

  // ---- the candidates by field ----

  ghost predicate AllSpaces(s: string) {
    forall i :: 0 <= i < |s| ==>
      var c := s[i] as int;
      9 <= c <= 13 || c == 32 || c == 133 || c == 160 || c == 5760 || 8192 <= c <= 8202 || c == 8232 || c == 8233
      || c == 8239 || c == 8287 || c == 12288
  }

  // Ten digits or more.
  ghost predicate AreDigits(s: string) {
    10 <= |s| && forall i :: 0 <= i < |s| ==> 48 <= s[i] as int <= 57
  }

  ghost predicate IsPadded(s: string, a: string, t: string, b: string) {
    s == a + t + b && AllSpaces(a) && AllSpaces(b)
  }

  lemma NoSpaces()
    ensures AllSpaces("")
  {
  }

  lemma MoreSpaces(c: char, a: string)
    requires IsSpace(c) && AllSpaces(a)
    ensures AllSpaces([c] + a) && AllSpaces(a + [c])
  {
  }

  lemma {:induction false} TrimIsPadded(s: string) returns (a: string, b: string)
    ensures IsPadded(s, a, TrimSpace(s), b)
  {
    hide IsSpace, AllSpaces;
    NoSpaces();
    if s != "" && IsSpace(s[0]) {
      a, b := TrimIsPadded(s[1..]);
      MoreSpaces(s[0], a);
      assert s == [s[0]] + s[1..];
      a := [s[0]] + a;
    } else if s != "" && IsSpace(s[|s| - 1]) {
      a, b := TrimIsPadded(s[..|s| - 1]);
      MoreSpaces(s[|s| - 1], b);
      assert s == s[..|s| - 1] + [s[|s| - 1]];
      b := b + [s[|s| - 1]];
    } else {
      a, b := "", "";
    }
  }

  lemma {:induction false} PaddedDigitsTrim(s: string, a: string, t: string, b: string)
    requires IsPadded(s, a, t, b) && AreDigits(t)
    ensures TrimSpace(s) == t
    decreases |s|
  {
    if a != "" {
      assert s[0] == a[0] && s[1..] == a[1..] + t + b;
      PaddedDigitsTrim(s[1..], a[1..], t, b);
    } else {
      assert s[0] == t[0];
      if b != "" {
        assert s[|s| - 1] == b[|b| - 1] && s[..|s| - 1] == a + t + b[..|b| - 1];
        PaddedDigitsTrim(s[..|s| - 1], a, t, b[..|b| - 1]);
      } else {
        assert s == t;
      }
    }
  }

  /** A mobile is valid exactly when it is ten or more digits between white space. */
  lemma ValidMobileIs(mobile: string)
    ensures IsValidMobile(mobile) <==> exists a, t, b :: IsPadded(mobile, a, t, b) && AreDigits(t)
  {
    if IsValidMobile(mobile) {
      var a, b := TrimIsPadded(mobile);
    }
    if a, t, b :| IsPadded(mobile, a, t, b) && AreDigits(t) {
      PaddedDigitsTrim(mobile, a, t, b);
    }
  }

  // What recipient j of a command asks for: the OTP recipients come first, a rejected OTP has no text.
  ghost predicate Wants(cmd: SendRequest, j: nat, recipient: string, kind: MessageType, mode: DeliveryMode,
                        text: string)
    requires j < |Mobiles(cmd)|
  {
    if j < OtpCount(cmd) then
      var otp := cmd.otp.value;
      && recipient == otp.recipients[j].mobile && kind == TypeOtp && mode == otp.mode
      && (if IsValidMobile(recipient)
          then exists order :: Template.IsOrder(otp.recipients[j].variables, order)
                               && text == Template.RenderInOrder(otp.template, otp.recipients[j].variables, order)
          else text == "")
    else
      var body := cmd.text.value;
      && recipient == body.recipients[j - OtpCount(cmd)] && kind == TypeText && mode == body.mode && text == body.text
  }

  /** Every column of a candidate: whom it is for, what it says and how, and whether it may be sent. */
  lemma CandidateFields(cfg: Config, cmd: SendRequest, cs: seq<Message>, j: nat)
    requires AreCandidates(cfg, cmd, cs) && j < |cs|
    ensures |cs| == |Mobiles(cmd)|
    ensures cs[j].userId == cmd.userId && cs[j].recipient == Mobiles(cmd)[j]
    ensures Wants(cmd, j, cs[j].recipient, cs[j].kind, cs[j].mode, cs[j].text)
    ensures if IsValidMobile(Mobiles(cmd)[j])
            then cs[j].cost == cfg.smsCost && cs[j].status == MessageQueued && cs[j].errorCode == None
            else cs[j].cost == 0 && cs[j].status == MessageRejected && cs[j].errorCode == Some(InvalidMobile)
  {
    hide IsValidMobile;
    if j < OtpCount(cmd) {
      assert IsOtpCandidate(cfg, cmd.userId, cmd.otp.value, cmd.otp.value.recipients[j], cs[j]);
    } else {
      var i := j - OtpCount(cmd);
      assert cs[OtpCount(cmd) + i] == TextCandidate(cfg, cmd.userId, cmd.text.value, cmd.text.value.recipients[i]);
    }
  }

  /** Where recipient j ends up and as what: the message that is stored for it, or the line that is skipped. */
  lemma PlacedFields(cfg: Config, cmd: SendRequest, cs: seq<Message>, affordable: nat, j: nat)
    requires AreCandidates(cfg, cmd, cs) && j < |cs|
    ensures |cs| == |Mobiles(cmd)|
    ensures var p := Split(cs, affordable);
            var valid := IsValidMobile(Mobiles(cmd)[j]);
            var before := ValidCount(Mobiles(cmd)[..j]);
            if valid && before < affordable then
              && before < |p.payable|
              && var m := p.payable[before];
              && Wants(cmd, j, m.recipient, m.kind, m.mode, m.text)
              && m.userId == cmd.userId && m.cost == cfg.smsCost && m.errorCode == None
            else
              && 0 <= j - Min(before, affordable) < |p.skipped|
              && var line := p.skipped[j - Min(before, affordable)];
              && Wants(cmd, j, line.recipient, line.kind, line.mode, line.text)
              && line.id == 0 && line.status == MessageRejected && line.cost == 0
              && line.errorCode == Some(if valid then InsufficientBalance else InvalidMobile)
  {
    hide AreCandidates, IsValidMobile, Split, Wants, Mobiles;
    CandidateFields(cfg, cmd, cs, j);
    SendableCount(cfg, cmd, cs, j);
    EveryCandidatePlaced(cs, affordable, j);
  }

  // The value planSend builds in place.
  class PlannedSend {
    var payable: seq<Message>
    var skipped: seq<MessageResult>
    var totalCost: int
    var rejectedCount: int
    var skippedCount: int

    ghost function View(): Planned
      reads this
    {
      Planned(payable, skipped, rejectedCount, skippedCount)
    }

    constructor ()
      ensures View() == Planned([], [], 0, 0) && totalCost == 0
    {
      payable, skipped, totalCost, rejectedCount, skippedCount := [], [], 0, 0, 0;
    }
  }

  method PlanOne(out: PlannedSend, accepted: int, affordable: nat, msg: Message) returns (accepted': int)
    requires accepted == |out.payable|
    modifies out
    ensures out.View() == Place(old(out.View()), affordable, msg)
    ensures accepted' == |out.payable| && out.totalCost == old(out.totalCost)
  {
    accepted' := accepted;
    if msg.status.MessageRejected? {
      out.rejectedCount := out.rejectedCount + 1;
      out.skipped := out.skipped + [ToMessageResult(0, msg)];
      return;
    }
    if accepted < affordable {
      accepted' := accepted + 1;
      out.payable := out.payable + [msg];
      return;
    }
    var m := msg.(status := MessageRejected, errorCode := Some(InsufficientBalance), cost := 0);
    out.skippedCount := out.skippedCount + 1;
    out.skipped := out.skipped + [ToMessageResult(0, m)];
  }

  method BuildOtpCandidate(cfg: Config, userId: int, otp: OtpPayload, r: OtpRecipient) returns (m: Message)
    ensures IsOtpCandidate(cfg, userId, otp, r, m)
    ensures m.userId == userId && m.recipient == r.mobile && m.kind == TypeOtp && m.mode == otp.mode
    ensures m.status == MessageQueued <==> IsValidMobile(r.mobile)
  {
    if !IsValidMobile(r.mobile) {
      return RejectedMessage(userId, r.mobile, TypeOtp, otp.mode, "", InvalidMobile);
    }
    var text, order := Template.RenderTemplate(otp.template, r.variables);
    m := QueuedMessage(cfg, userId, r.mobile, TypeOtp, otp.mode, text);
  }

  // The first loop of planSend.
  method PlanOtp(cfg: Config, userId: int, otp: OtpPayload, affordable: nat, out: PlannedSend)
    returns (accepted: int, ghost cs: seq<Message>)
    requires out.View() == Planned([], [], 0, 0) && out.totalCost == 0
    modifies out
    ensures |cs| == |otp.recipients|
    ensures forall i :: 0 <= i < |cs| ==> IsOtpCandidate(cfg, userId, otp, otp.recipients[i], cs[i])
    ensures out.View() == Split(cs, affordable) && accepted == |out.payable| && out.totalCost == 0
  {
    cs, accepted := [], 0;
    for i := 0 to |otp.recipients|
      invariant |cs| == i && accepted == |out.payable| && out.View() == Split(cs, affordable) && out.totalCost == 0
      invariant forall j :: 0 <= j < i ==> IsOtpCandidate(cfg, userId, otp, otp.recipients[j], cs[j])
    {
      var m := BuildOtpCandidate(cfg, userId, otp, otp.recipients[i]);
      accepted := PlanOne(out, accepted, affordable, m);
      SplitSnoc(cs, m, affordable);
      cs := cs + [m];
    }
  }

  lemma SplitSnoc(cs: seq<Message>, m: Message, affordable: nat)
    ensures Split(cs + [m], affordable) == Place(Split(cs, affordable), affordable, m)
  {
    assert (cs + [m])[..|cs|] == cs;
  }

  // The second loop of planSend; before holds the candidates of the first.
  method PlanText(cfg: Config, userId: int, text: TextPayload, affordable: nat, out: PlannedSend, accepted0: int,
                  ghost before: seq<Message>)
    returns (accepted: int, ghost cs: seq<Message>)
    requires out.View() == Split(before, affordable) && accepted0 == |out.payable| && out.totalCost == 0
    modifies out
    ensures |cs| == |text.recipients|
    ensures forall i :: 0 <= i < |cs| ==> cs[i] == TextCandidate(cfg, userId, text, text.recipients[i])
    ensures out.View() == Split(before + cs, affordable) && accepted == |out.payable| && out.totalCost == 0
  {
    hide IsValidMobile, Split, Place;
    cs, accepted := [], accepted0;
    assert before + cs == before;
    for i := 0 to |text.recipients|
      invariant |cs| == i && accepted == |out.payable| && out.totalCost == 0
      invariant out.View() == Split(before + cs, affordable)
      invariant forall j :: 0 <= j < i ==> cs[j] == TextCandidate(cfg, userId, text, text.recipients[j])
    {
      var m := TextCandidate(cfg, userId, text, text.recipients[i]);
      accepted := PlanOne(out, accepted, affordable, m);
      SplitSnoc(before + cs, m, affordable);
      assert before + (cs + [m]) == before + cs + [m];
      cs := cs + [m];
    }
  }

  lemma JoinCandidates(cfg: Config, cmd: SendRequest, otps: seq<Message>, texts: seq<Message>)
    requires |otps| == OtpCount(cmd) && |texts| == TextCount(cmd)
    requires forall i :: 0 <= i < |otps| ==>
               IsOtpCandidate(cfg, cmd.userId, cmd.otp.value, cmd.otp.value.recipients[i], otps[i])
    requires forall i :: 0 <= i < |texts| ==>
               texts[i] == TextCandidate(cfg, cmd.userId, cmd.text.value, cmd.text.value.recipients[i])
    ensures AreCandidates(cfg, cmd, otps + texts)
  {
    hide IsOtpCandidate, TextCandidate;
  }

  method PlanSend(cfg: Config, cmd: SendRequest, available: int) returns (out: PlannedSend, ghost cs: seq<Message>)
    ensures fresh(out) && AreCandidates(cfg, cmd, cs)
    ensures out.View() == Split(cs, Affordable(cfg, available))
    ensures out.totalCost == TotalCost(cfg, out.View())
    ensures 0 <= available ==> 0 <= out.totalCost <= available
    ensures out.payable == Sendable(cs)[..Min(Affordable(cfg, available), |Sendable(cs)|)]
    ensures |cs| == |Mobiles(cmd)|
    ensures forall j :: 0 <= j < |cs| ==> Wants(cmd, j, cs[j].recipient, cs[j].kind, cs[j].mode, cs[j].text)
  {
    hide IsOtpCandidate, TextCandidate, AreCandidates, Sendable;
    var affordable := Affordable(cfg, available);
    out := new PlannedSend();
    var accepted := 0;
    ghost var otps, texts := [], [];
    if cmd.otp.Some? {
      accepted, otps := PlanOtp(cfg, cmd.userId, cmd.otp.value, affordable, out);
    }
    if cmd.text.Some? {
      accepted, texts := PlanText(cfg, cmd.userId, cmd.text.value, affordable, out, accepted, otps);
    }
    cs := otps + texts;
    assert texts == [] ==> cs == otps;
    JoinCandidates(cfg, cmd, otps, texts);
    CandidatesLength(cfg, cmd, cs);
    forall j | 0 <= j < |cs| ensures Wants(cmd, j, cs[j].recipient, cs[j].kind, cs[j].mode, cs[j].text) {
      CandidateFields(cfg, cmd, cs, j);
    }
    hide Split;
    out.totalCost := accepted * cfg.smsCost;
    PayableIsAffordablePrefix(cs, affordable);
    if 0 <= available { SplitIsOptimal(cfg, cs, available); }
  }
}
