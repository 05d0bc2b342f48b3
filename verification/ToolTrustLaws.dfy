/** What it takes to be trusted, with the reviewed texts written out: no tool that declares one of the seven forbidden
    capabilities is ever trusted, and no tool is trusted without its papers. */
module ToolTrustLaws {
  import opened Prelude
  import opened Policy
  import opened Text
  import opened ToolTrust

  // --- Forbidden capabilities --------------------------------------------------------------------------------------

  predicate IsForbidden(capability: string) {
    || Mentions(capability, "credential_theft") || Mentions(capability, "credential_dump")
    || Mentions(capability, "persistence") || Mentions(capability, "evasion")
    || Mentions(capability, "exploit_auto") || Mentions(capability, "av_bypass")
    || Mentions(capability, "security_control_bypass")
  }

  /** One of the capabilities contains one of the seven texts, in whichever case. */
  predicate DeclaresForbidden(card: Card) {
    exists c :: c in card.capabilities && IsForbidden(c)
  }

  /** Markers are in lower case and of one word. */
  predicate IsMarker(m: string) {
    IsLower(m) && m != "" && forall i :: 0 <= i < |m| ==> m[i] != ' '
  }

  lemma MarkerIsLower(m: string)
    requires IsMarker(m)
    ensures IsLower(m)
  {
  }

  /** A text of one word is written in a text with a blank exactly if it is written on one side of it. */
  lemma AroundABlank(a: string, b: string, m: string)
    requires IsMarker(m)
    ensures Mentions(a + " " + b, m) <==> Mentions(a, m) || Mentions(b, m)
  {
    hide Lower, IsLower;
    var s := a + " " + b;
    if Mentions(a, m) {
      var i :| 0 <= i <= |a| && WrittenAt(a, m, i);
      assert s[i..i + |m|] == a[i..i + |m|];
      assert WrittenAt(s, m, i);
    }
    if Mentions(b, m) {
      var i :| 0 <= i <= |b| && WrittenAt(b, m, i);
      var j := |a| + 1 + i;
      assert s[j..j + |m|] == b[i..i + |m|];
      assert WrittenAt(s, m, j);
    }
    if Mentions(s, m) {
      var i :| 0 <= i <= |s| && WrittenAt(s, m, i);
      NotAcross(a, b, m, i);
    }
  }

  lemma NotAcross(a: string, b: string, m: string, i: int)
    requires IsMarker(m) && WrittenAt(a + " " + b, m, i)
    ensures Mentions(a, m) || Mentions(b, m)
  {
    hide Lower, IsLower;
    var s := a + " " + b;
    if i + |m| <= |a| {
      assert s[i..i + |m|] == a[i..i + |m|];
      assert WrittenAt(a, m, i);
    } else if i > |a| {
      var j := i - |a| - 1;
      assert s[i..i + |m|] == b[j..j + |m|];
      assert WrittenAt(b, m, j);
    } else {
      BlankInside(a, b, m, i);
    }
  }

  lemma BlankInside(a: string, b: string, m: string, i: int)
    requires IsMarker(m) && 0 <= i <= |a| < i + |m| <= |a| + 1 + |b|
    ensures !WrittenAt(a + " " + b, m, i)
  {
    hide Lower, IsLower;
    var part, k := (a + " " + b)[i..i + |m|], |a| - i;
    assert part[k] == ' ' && !SameLetter(part[k], m[k]);
  }

  lemma {:induction false} JoinedMentions(cs: seq<string>, m: string)
    requires IsMarker(m)
    ensures Mentions(JoinWith(" ", cs), m) <==> exists c :: c in cs && Mentions(c, m)
  {
    hide Mentions, IsMarker;
    if |cs| == 0 {
      NothingMentioned(m);
    } else if |cs| == 1 {
      assert forall c :: c in cs <==> c == cs[0];
    } else {
      JoinedMentions(cs[1..], m);
      AroundABlank(cs[0], JoinWith(" ", cs[1..]), m);
      assert forall c :: c in cs <==> c == cs[0] || c in cs[1..];
    }
  }

  lemma NothingMentioned(m: string)
    requires IsMarker(m)
    ensures !Mentions("", m)
  {
  }

  lemma SomeMarkers()
    ensures IsMarker("credential_theft") && IsMarker("credential_dump") && IsMarker("persistence")
  {
  }

  lemma OtherMarkers()
    ensures IsMarker("evasion") && IsMarker("exploit_auto") && IsMarker("av_bypass")
  {
  }

  lemma LastMarker()
    ensures IsMarker("security_control_bypass")
  {
  }

  lemma MarkersAreMarkers()
    ensures forall m :: m in PROHIBITED_MARKERS ==> IsMarker(m)
  {
    hide IsMarker;
    SomeMarkers();
    OtherMarkers();
    LastMarker();
  }

  /** The seven markers, and no others. */
  lemma SevenMarkers(s: string)
    ensures (exists m :: m in PROHIBITED_MARKERS && Mentions(s, m)) <==> IsForbidden(s)
  {
    hide Mentions;
    var ms := PROHIBITED_MARKERS;
    assert ms[0] == "credential_theft" && ms[1] == "credential_dump" && ms[2] == "persistence" && ms[3] == "evasion"
        && ms[4] == "exploit_auto" && ms[5] == "av_bypass" && ms[6] == "security_control_bypass" && |ms| == 7;
    if m :| m in ms && Mentions(s, m) {
      var k :| 0 <= k < |ms| && ms[k] == m;
    }
    assert forall k :: 0 <= k < 7 ==> ms[k] in ms;
  }

  /** The security review objects exactly to the cards that declare something forbidden. */
  lemma ProhibitedExactly(card: Card)
    ensures Prohibited(card) <==> DeclaresForbidden(card)
  {
    hide Mentions, Lower, IsMarker, IsForbidden, Contains;
    MarkersAreMarkers();
    var joined := JoinWith(" ", card.capabilities);
    forall m | m in PROHIBITED_MARKERS
      ensures Contains(CapabilityText(card), m) <==> exists c :: c in card.capabilities && Mentions(c, m)
    {
      assert IsLower(m) by { MarkerIsLower(m); }
      LoweredContains(joined, m);
      JoinedMentions(card.capabilities, m);
    }
    forall c | c in card.capabilities
      ensures (exists m :: m in PROHIBITED_MARKERS && Mentions(c, m)) <==> IsForbidden(c)
    {
      SevenMarkers(c);
    }
  }

  // --- The papers --------------------------------------------------------------------------------------------------

  predicate Given(text: Option<string>) {
    text.Some? && text.value != ""
  }

  predicate FromOfficialSource(card: Card) {
    || card.sourceType == OFFICIAL_WEBSITE || card.sourceType == OFFICIAL_GITHUB
    || card.sourceType == OFFICIAL_PACKAGE_REGISTRY
  }

  predicate IsPlatform(p: string) {
    p == "WINDOWS" || p == "LINUX" || p == "MACOS" || p == "ANDROID_TERMUX"
  }

  /** Name, description, an official source with its address, version, license, platforms, all of them known, no
      dependencies, nothing forbidden. */
  predicate Flawless(card: Card) {
    && card.name != "" && card.description != "" && Given(card.version) && Given(card.license)
    && FromOfficialSource(card) && Given(card.sourceUrl)
    && card.platforms != [] && (forall p :: p in card.platforms ==> IsPlatform(p))
    && card.dependencies == [] && !DeclaresForbidden(card)
  }

  lemma ImpeccableExactly(card: Card)
    ensures Impeccable(card) <==> Flawless(card)
  {
    hide Prohibited, DeclaresForbidden;
    ProhibitedExactly(card);
  }

  /** What the review finds in each respect: VERIFIED, and else whether that is a shortcoming or something not known. */
  lemma StagesMean(card: Card)
    ensures var r := Review(card);
            && r.Keys == {COLLECT_METADATA, VERIFY_SOURCE, VERIFY_VERSION, CHECK_PLATFORM, CHECK_LICENSE,
                          CHECK_DEPENDENCIES, SECURITY_POLICY_REVIEW}
            && r[COLLECT_METADATA] ==
               (if card.name != "" && card.description != "" then Result.VERIFIED else Result.UNKNOWN)
            && r[VERIFY_SOURCE] ==
               (if FromOfficialSource(card) && Given(card.sourceUrl) then Result.VERIFIED
                else if card.sourceType == OTHER_REPUTABLE then UNVERIFIED else Result.UNKNOWN)
            && r[VERIFY_VERSION] == (if Given(card.version) then Result.VERIFIED else Result.UNKNOWN)
            && r[CHECK_PLATFORM] ==
               (if card.platforms == [] then Result.UNKNOWN
                else if forall p :: p in card.platforms ==> IsPlatform(p) then Result.VERIFIED else UNVERIFIED)
            && r[CHECK_LICENSE] == (if Given(card.license) then Result.VERIFIED else Result.UNKNOWN)
            && r[CHECK_DEPENDENCIES] == (if card.dependencies == [] then Result.VERIFIED else UNVERIFIED)
            && r[SECURITY_POLICY_REVIEW] == (if DeclaresForbidden(card) then FAILED else Result.VERIFIED)
  {
    hide Prohibited, DeclaresForbidden;
    ProhibitedExactly(card);
    AllStages();
  }

  /** `verify` blocks a tool exactly if it declares something forbidden, trusts it exactly if it is flawless, and leaves
      it under review otherwise, whatever its trust was. */
  lemma VerifyMeans(r: Registry, id: Uuid)
    requires id in r
    ensures var t := Apply(r, Op.Verify(id)).after[id];
            && t.card == r[id].card
            && (t.trust == BLOCKED <==> DeclaresForbidden(t.card))
            && (t.trust == TrustStatus.VERIFIED <==> Flawless(t.card))
            && t.trust in {BLOCKED, TrustStatus.VERIFIED, UNDER_REVIEW}
            && (Overall(t.verification) == FAILED <==> DeclaresForbidden(t.card))
  {
    hide Prohibited, DeclaresForbidden, Impeccable, Flawless, Review, Overall;
    ReviewPasses(r[id].card);
    ProhibitedExactly(r[id].card);
    ImpeccableExactly(r[id].card);
    FlawlessAllows(r[id].card);
  }

  lemma FlawlessAllows(card: Card)
    ensures Flawless(card) ==> !DeclaresForbidden(card)
  {
  }

  // --- All runs ----------------------------------------------------------------------------------------------------

  /** Over every sequence of registry operations, a tool that is VERIFIED or APPROVED is flawless. */
  lemma TrustedIsFlawless(ops: seq<Op>, id: Uuid)
    requires id in After(map[], ops)
    requires After(map[], ops)[id].trust in {TrustStatus.VERIFIED, APPROVED}
    ensures Flawless(After(map[], ops)[id].card)
  {
    hide After, Impeccable, Flawless, Review, Overall;
    RegistryAlwaysSound(map[], ops);
    ImpeccableExactly(After(map[], ops)[id].card);
  }

  /** The operations are refused for a name already taken, an unknown tool, and the approval of a tool that is not
      VERIFIED, and then change nothing; otherwise they touch one tool. A new one is DISCOVERED and unreviewed. */
  lemma RoutesMean(r: Registry, op: Op)
    ensures var a, id := Apply(r, op), if op.Register? then op.card.id else op.id;
            && (a.reply == DuplicateName <==> op.Register? && exists i :: i in r && r[i].card.name == op.card.name)
            && (a.reply == NotFound <==> !op.Register? && id !in r)
            && (a.reply == InvalidTransition <==> op.Approve? && id in r && r[id].trust != TrustStatus.VERIFIED)
            && (!a.reply.Done? ==> a.after == r)
            && (a.reply.Done? ==>
                  && a.after.Keys == r.Keys + {id} && a.reply == Done(a.after[id])
                  && (forall i :: i in r && i != id ==> a.after[i] == r[i])
                  && (op.Register? ==> a.after[id] == Tool(op.card, DISCOVERED, map[]))
                  && (op.Approve? ==> a.after[id] == r[id].(trust := APPROVED))
                  && (op.Block? ==> a.after[id] == r[id].(trust := BLOCKED))
                  && (op.Deprecate? ==> a.after[id] == r[id].(trust := DEPRECATED)))
  {
    hide Review, Overall;
  }

  /** The operation may end what a block or a deprecation of the tool says. */
  predicate Reopens(op: Op, id: Uuid) {
    match op
    case Register(card) => card.id == id
    case Approve(_) => false
    case _ => op.id == id
  }

  /** A block and a deprecation hold, and keep the tool from being used, until it is verified again or the other of the
      two is called: approvals in between are refused. */
  lemma {:induction false} VerdictLasts(r: Registry, ops: seq<Op>, id: Uuid, platform: Option<string>)
    requires id in r && r[id].trust in {BLOCKED, DEPRECATED}
    requires forall op :: op in ops ==> !Reopens(op, id)
    ensures var end := After(r, ops);
            && id in end && end[id] == r[id]
            && GateObjection(end[id], platform) == Some(if r[id].trust == BLOCKED then IsBlocked else IsDeprecated)
    decreases |ops|
  {
    hide Apply, Prohibited;
    if ops != [] {
      assert ops[0] in ops && forall op :: op in ops[1..] ==> op in ops;
      RoutesMean(r, ops[0]);
      VerdictLasts(Apply(r, ops[0]).after, ops[1..], id, platform);
    }
  }

  /** And a tool that declares something forbidden is never trusted, never eligible, and never ready to be installed. */
  lemma ForbiddenIsNeverTrusted(
    ops: seq<Op>, id: Uuid, gate: Option<string>, target: TargetScope, platform: string, policyNow: Time,
    scopeNow: Time)
    requires id in After(map[], ops) && DeclaresForbidden(After(map[], ops)[id].card)
    ensures var t := After(map[], ops)[id];
            && t.trust != TrustStatus.VERIFIED && t.trust != APPROVED
            && GateObjection(t, gate).Some?
            && !Ready(CheckReadiness(Some(t), target, platform, policyNow, scopeNow))
  {
    hide After, DeclaresForbidden, Flawless, CheckReadiness, Ready, GateObjection, IsAuthorized;
    var t := After(map[], ops)[id];
    if t.trust in {TrustStatus.VERIFIED, APPROVED} {
      TrustedIsFlawless(ops, id);
      FlawlessAllows(t.card);
    }
    GateReduces(ops, id, gate);
    ReadyUnfolds(t, target, platform, policyNow, scopeNow);
  }

  /** Which objection the gate raises: the first that applies, of blocked, deprecated, forbidden, wrong platform, failed
      review and not approved. */
  lemma GateMeans(t: Tool, platform: Option<string>)
    ensures var o := GateObjection(t, platform);
            && (o == Some(IsBlocked) <==> t.trust == BLOCKED)
            && (o == Some(IsDeprecated) <==> t.trust == DEPRECATED)
            && (o == Some(DeclaresProhibited) <==>
                  t.trust !in {BLOCKED, DEPRECATED} && DeclaresForbidden(t.card))
            && (o == Some(WrongPlatform) <==>
                  && t.trust !in {BLOCKED, DEPRECATED} && !DeclaresForbidden(t.card)
                  && platform.Some? && platform.value !in t.card.platforms)
            && (o == None ==> t.trust == APPROVED)
  {
    hide Prohibited, DeclaresForbidden;
    ProhibitedExactly(t.card);
  }
}
