/** Who gets in: pairing with the right code, in time, and nothing else, gives a device its token; and only a token
    opens a connection. */
module TermuxAccess {
  import opened Prelude
  import opened TermuxPairing
  import opened TermuxConnection
  import opened TermuxRuns

  /** Nobody confirms or revokes the device meanwhile. */
  predicate LeftAlone(es: seq<Event>, d: DeviceId) {
    forall e :: e in es ==> !((e.Confirm? || e.Revoke?) && e.device == d)
  }

  predicate WaitsForCode(p: Pairings, d: DeviceId, code: string, expiresAt: Time) {
    && d in p.devices && p.devices[d] == PAIRING_REQUIRED
    && d in p.codes && p.codes[d] == PendingCode(Digest(code), expiresAt)
  }

  lemma CodeKept(p: Pairings, e: Event, d: DeviceId, code: string, expiresAt: Time)
    requires SoundDevice(p, d) && WaitsForCode(p, d, code, expiresAt)
    requires e.Register? ==> e.device !in p.devices
    requires !((e.Confirm? || e.Revoke?) && e.device == d)
    ensures WaitsForCode(NextPairing(p, e), d, code, expiresAt)
  {
  }

  lemma {:induction false} CodeWaits(h: Hub, es: seq<Event>, d: DeviceId, code: string, expiresAt: Time)
    requires Sound(h) && FreshRun(h, es) && LeftAlone(es, d) && WaitsForCode(h.pairing, d, code, expiresAt)
    ensures WaitsForCode(Run(h, es).pairing, d, code, expiresAt)
  {
    hide Sound, NextTransports, NextSlots, NextPairing, WaitsForCode;
    if es != [] {
      var init, e := es[..|es| - 1], es[|es| - 1];
      assert e in es && forall x :: x in init ==> x in es;
      CodeWaits(h, init, d, code, expiresAt);
      RunSound(h, init);
      SoundFor(Run(h, init), d);
      CodeKept(Run(h, init).pairing, e, d, code, expiresAt);
    }
  }

  lemma SoundFor(h: Hub, d: DeviceId)
    requires Sound(h)
    ensures SoundDevice(h.pairing, d)
  {
  }

  /** A registered device that was left alone since is paired by a confirmation exactly if that presents its own code,
      in time; from then on the token handed out, and no other, authenticates it. A wrong code leaves everything as it
      was; a late one uses the code up. */
  lemma RightCodePairs(
    h: Hub, d: DeviceId, code: string, expiresAt: Time, es: seq<Event>, presented: string, token: string, now: Time)
    requires Sound(h) && d !in h.pairing.devices && FreshRun(Next(h, Register(d, code, expiresAt)), es)
        && LeftAlone(es, d)
    ensures var p := Run(Next(h, Register(d, code, expiresAt)), es).pairing;
            var attempt := Confirmed(p, d, presented, token, now);
            && (attempt.error == None <==> presented == code && now <= expiresAt)
            && (attempt.error == Some(PairingCodeExpired) <==> now > expiresAt)
            && (attempt.error == None ==>
                  && attempt.after.devices == p.devices[d := AUTHORIZED] && d !in attempt.after.codes
                  && forall t :: Authentication(attempt.after, d, t) == None <==> t == token)
            && (now > expiresAt ==> attempt.after == p.(codes := p.codes - {d}))
            && (now <= expiresAt && presented != code ==> attempt.after == p)
  {
    hide NextTransports, NextSlots;
    NextSound(h, Register(d, code, expiresAt));
    CodeWaits(Next(h, Register(d, code, expiresAt)), es, d, code, expiresAt);
  }

  predicate NotRevoked(es: seq<Event>, d: DeviceId) {
    forall e :: e in es ==> e != Revoke(d)
  }

  lemma TokenKept(p: Pairings, e: Event, d: DeviceId)
    requires SoundDevice(p, d) && d in p.tokens && e != Revoke(d)
    requires e.Register? ==> e.device !in p.devices
    ensures d in NextPairing(p, e).tokens && NextPairing(p, e).tokens[d] == p.tokens[d]
  {
  }

  /** Once handed out, a token is good until the device is revoked, whatever happens. */
  lemma {:induction false} TokenLasts(h: Hub, es: seq<Event>, d: DeviceId, token: string)
    requires Sound(h) && FreshRun(h, es) && NotRevoked(es, d) && Authentication(h.pairing, d, token) == None
    ensures Authentication(Run(h, es).pairing, d, token) == None
    ensures d in Run(h, es).pairing.tokens && Run(h, es).pairing.tokens[d] == Digest(token)
  {
    hide Sound, NextTransports, NextSlots, NextPairing;
    if es != [] {
      var init, e := es[..|es| - 1], es[|es| - 1];
      assert e in es && forall x :: x in init ==> x in es;
      TokenLasts(h, init, d, token);
      RunSound(h, init);
      SoundFor(Run(h, init), d);
      TokenKept(Run(h, init).pairing, e, d);
      RunSound(h, es);
      SoundFor(Run(h, es), d);
    }
  }

  /** A connection opens exactly for a token that authenticates the device, and then replaces the one there was. */
  lemma ConnectMeans(h: Hub, d: DeviceId, token: string, t: Transport)
    ensures var after := Next(h, Connect(d, token, t));
            && (Authentication(h.pairing, d, token) == None ==>
                  && after.transports == h.transports[d := t]
                  && d in after.pairing.devices && after.pairing.devices[d] == CONNECTED)
            && (Authentication(h.pairing, d, token) != None ==> after == h)
  {
  }

  predicate OpenedBy(h: Hub, es: seq<Event>, i: nat, d: DeviceId, t: Transport) {
    && i < |es| && es[i].Connect? && es[i].device == d && es[i].transport == t
    && Authentication(Run(h, es[..i]).pairing, d, es[i].token) == None
    && forall j :: i < j < |es| ==> es[j] != Disconnect(d)
  }

  /** In every run a connection that is there was opened by somebody holding the device's token at that time, and has
      not been closed since. */
  lemma {:induction false} ConnectionsAreAuthenticated(h: Hub, es: seq<Event>, d: DeviceId)
    requires h.transports == map[] && d in Run(h, es).transports
    ensures exists i: nat :: OpenedBy(h, es, i, d, Run(h, es).transports[d])
  {
    hide NextPairing, NextSlots, Authentication;
    var init, e := es[..|es| - 1], es[|es| - 1];
    var was, now := Run(h, init), Run(h, es);
    if e.Connect? && e.device == d && Authentication(was.pairing, d, e.token) == None {
      assert OpenedBy(h, es, |es| - 1, d, e.transport);
    } else {
      ConnectionsAreAuthenticated(h, init, d);
      var i: nat :| OpenedBy(h, init, i, d, was.transports[d]);
      assert init[..i] == es[..i];
      assert OpenedBy(h, es, i, d, now.transports[d]);
    }
  }
}
