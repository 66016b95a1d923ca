/** What every run of the membrane keeps, over every interleaving of its connections. */
module MembraneRuns {
  import opened Texts
  import opened MembraneRules
  import opened MembraneSteps

  // --------------------------------------------------------- what a grant means

  /** The session was accepted under the policy: declared capabilities inside the scope of an attested plugin. */
  ghost predicate SessionOk(w: World, s: Session) {
    && s.allowed != {} && s.plugin in w.policy.scope && s.allowed <= w.policy.scope[s.plugin]
    && s.plugin in w.policy.untrusted && s.plugin in w.bundleHashes && s.bundleHash == w.bundleHashes[s.plugin]
  }

  /** A pinned definition hash, where there is a pin, is the one the proposal asserts, if it asserts one. */
  ghost predicate PinRespected(w: World, proposal: Dict, capability: string, version: string) {
    Get(proposal, "capability_definition_hash").VNull?
    || (&& Get(proposal, "capability_definition_hash").VStr?
        && IsDefinitionHash(TextAt(proposal, "capability_definition_hash"))
        && ((capability, version) in w.snapshot.pins ==>
              w.snapshot.pins[(capability, version)] == TextAt(proposal, "capability_definition_hash")))
  }

  /** The memory scope is a string of 1 to 256 characters after trimming, where the capability needs one. */
  ghost predicate ScopeGiven(proposal: Dict, capability: string) {
    OperationOf(capability).Some? ==>
      && Get(proposal, "payload").VDict?
      && var s := Strip(TextAt(Get(proposal, "payload").fields, "memory_scope"));
         1 <= |s| <= 256
  }

  /** What the policy asks of a proposal under a session. */
  ghost predicate Admissible(w: World, session: Session, proposal: Dict) {
    var capability := TextAt(proposal, "capability");
    var version := Strip(TextAt(proposal, "capability_version"));
    && "payload" in proposal && HasTexts(proposal)
    && capability in session.allowed
    && 1 <= |version| <= 256 && (capability, version) in w.snapshot.allowedPairs
    && PinRespected(w, proposal, capability, version)
    && ScopeGiven(proposal, capability)
    && EdgeIsAllowed(w.policy, TextAt(proposal, "from_module"), TextAt(proposal, "to_module"))
    && !(w.adversarial && (EndsWith(capability, ".evil") || w.tripwire(proposal)))
  }

  /** A proposal passes all checks exactly when it is admissible. */
  lemma ProposalIsAdmittedIffAdmissible(w: World, a: Admission)
    ensures AdmitProposal(w, a).Admit? <==> Admissible(w, a.session, a.proposal)
    ensures AdmitProposal(w, a).Admit? ==> AdmitProposal(w, a).admission == a
  {
    var capability := TextAt(a.proposal, "capability");
    VersionIffListed(w, a.proposal, capability);
    if VersionField(a.proposal, w.snapshot, capability).Fine? {
      HashIffPinned(w, a.proposal, capability, VersionField(a.proposal, w.snapshot, capability).value);
    }
    ScopeIffGiven(a.proposal, capability);
  }

  lemma VersionIffListed(w: World, proposal: Dict, capability: string)
    ensures var version := Strip(TextAt(proposal, "capability_version"));
            VersionField(proposal, w.snapshot, capability) == Fine(version) <==>
            1 <= |version| <= 256 && (capability, version) in w.snapshot.allowedPairs
    ensures VersionField(proposal, w.snapshot, capability).Fine? ==>
              VersionField(proposal, w.snapshot, capability).value == Strip(TextAt(proposal, "capability_version"))
  {
  }

  lemma HashIffPinned(w: World, proposal: Dict, capability: string, version: string)
    ensures HashField(proposal, w.snapshot, capability, version).Fine? <==>
            PinRespected(w, proposal, capability, version)
    ensures HashField(proposal, w.snapshot, capability, version).Fine? ==>
              HashField(proposal, w.snapshot, capability, version).value == ReceiptHash(proposal)
  {
  }

  lemma ScopeIffGiven(proposal: Dict, capability: string)
    ensures ScopeField(capability, proposal).Fine? <==> ScopeGiven(proposal, capability)
  {
  }

  lemma StripRightOfTrimmed(s: string)
    requires s == [] || !IsWhitespace(s[|s| - 1])
    ensures StripRight(s) == s
  {
  }

  lemma StripIsIdempotent(s: string)
    ensures Strip(Strip(s)) == Strip(s)
  {
    var left := StripLeft(s);
    var t := StripRight(left);
    if t != [] {
      assert t[0] == left[0];
      StripRightOfTrimmed(t);
    }
  }

  /** The pairs of the snapshot are trimmed, as the loader leaves them. */
  ghost predicate PairsAreTrimmed(snapshot: Snapshot) {
    forall pair | pair in snapshot.allowedPairs :: Strip(pair.0) == pair.0 && Strip(pair.1) == pair.1
  }

  lemma LoadedPairsAreTrimmed(snapshot: Snapshot, data: Dict)
    requires IsSnapshot(data)
    requires forall pair ::
               pair in snapshot.allowedPairs <==> exists e :: e in Get(data, "entries").items && PairOf(e) == Some(pair)
    ensures PairsAreTrimmed(snapshot)
  {
    forall pair | pair in snapshot.allowedPairs
      ensures Strip(pair.0) == pair.0 && Strip(pair.1) == pair.1
    {
      var e :| e in Get(data, "entries").items && PairOf(e) == Some(pair);
      StripIsIdempotent(TextAt(e.fields, "capability"));
      StripIsIdempotent(TextAt(e.fields, "version"));
    }
  }

  /**
   What the mode on an `admitted` receipt means: `enforced_pinned` if and only if the snapshot pins exactly the
   definition hash that was asserted, `absent` if and only if none was asserted.
   */
  lemma ModeTellsThePin(w: World, a: Admission)
    requires PairsAreTrimmed(w.snapshot) && Admissible(w, a.session, a.proposal)
    ensures var core := AdmittedCore(w, a);
            var pair := (core.capability, Strip(TextAt(a.proposal, "capability_version")));
            && core.version == Some(pair.1)
            && (core.mode == Some(EnforcedPinned) <==>
                  core.definitionHash.Some? && pair in w.snapshot.pins
                      && w.snapshot.pins[pair] == core.definitionHash.value)
            && (core.mode == Some(HashMode.Absent) <==> core.definitionHash.None?)
            && core.definitionHash == ReceiptHash(a.proposal)
  {
    var capability, version := TextAt(a.proposal, "capability"), Strip(TextAt(a.proposal, "capability_version"));
    VersionIffListed(w, a.proposal, capability);
    HashIffPinned(w, a.proposal, capability, version);
    assert (capability, version) in w.snapshot.allowedPairs;
  }

  /** A registration is accepted exactly when it is attested, in scope, and expected by the host. */
  lemma RegistrationIsExact(w: World, registry: map<string, Slot>, msg: Dict, x: Outside, client: string,
                            session: Session)
    ensures RegisterFrame(w, registry, msg, x) == Accept(client, session) <==>
            && Get(msg, "op") == VStr("register") && AttestationOf(msg).Some?
            && var a := AttestationOf(msg).value;
               && client == a.client && SessionOk(w, session)
               && session == Session(a.adapterId, Declared(w, a.capabilities), w.lower(a.bundle), a.plugin)
               && client in registry && registry[client] == Slot(a.plugin, a.adapterId)
  {
  }

  // ------------------------------------------------------------------- invariants

  ghost predicate AdmissionOk(w: World, a: Admission) {
    SessionOk(w, a.session) && Admissible(w, a.session, a.proposal)
  }

  /** The receipt core of a granted admission. */
  ghost predicate GrantsAdmission(w: World, a: Admission, core: Core) {
    AdmissionOk(w, a) && core == AdmittedCore(w, a)
  }

  /** Receipt `at` is the receipt of a granted admission. */
  ghost predicate AdmittedAt(w: World, h: seq<Entry>, at: nat) {
    at < |h| && h[at].cause.ForAdmission? && GrantsAdmission(w, h[at].cause.admission, h[at].receipt.core)
  }

  ghost predicate EnvelopeOk(w: World, e: Execution) {
    && w.sameValue(Get(e.envelope, "intentId"), Get(e.proposal, "intent_id"))
    && "payload" in e.proposal && w.dumps(Get(e.envelope, "payload")) == w.dumps(e.proposal["payload"])
  }

  /** The redeemed ticket is the one issued for an admission of the same client and the same proposal hash. */
  ghost predicate RedemptionOk(w: World, h: seq<Entry>, grants: map<string, nat>, r: Redemption) {
    && r.execution.token in grants
    && var at := grants[r.execution.token];
       && AdmittedAt(w, h, at)
       && r.ticket == TicketOf(w, h[at].cause.admission, h[at].receipt.id)
       && r.client == h[at].cause.admission.client
       && w.inputHash(r.execution.proposal) == w.inputHash(h[at].cause.admission.proposal)
       && SessionOk(w, r.session) && EnvelopeOk(w, r.execution)
  }

  /** The receipt core tells how this redemption ended. */
  ghost predicate TellsOutcome(w: World, r: Redemption, core: Core) {
    && core == OutcomeCore(w, r.client, r.session, r.ticket, r.execution.proposal, core.extra, core.timestamp)
    && match core.extra
       case GoldOutcome(_, rid) => rid == r.ticket.admitReceiptId
                                   && ScopeField(r.ticket.capability, r.execution.proposal).Fine?
       case ScopeOutcome(detail, rid) =>
         rid == r.ticket.admitReceiptId && ScopeField(r.ticket.capability, r.execution.proposal) == Faulty(detail)
       case _ => false
  }

  ghost predicate PlainCore(core: Core) {
    && (core.decision.Rejected? || core.decision.Killed?)
    && !core.extra.GoldOutcome? && !core.extra.ScopeOutcome?
  }

  ghost predicate WasCalled(golds: seq<GoldCall>, r: Redemption) {
    exists g | 0 <= g < |golds| :: golds[g].redemption == r
  }

  /** The receipt core tells how this redemption ended, and speaks of Gold only if Gold was called. */
  ghost predicate Tells(w: World, golds: seq<GoldCall>, r: Redemption, core: Core) {
    TellsOutcome(w, r, core) && (core.extra.GoldOutcome? ==> WasCalled(golds, r))
  }

  ghost predicate At(places: map<string, Place>, token: string, p: Place) {
    token in places && places[token] == p
  }

  ghost predicate EntryOk(w: World, s: State, i: nat)
    requires i < |s.history|
  {
    match s.history[i].cause
    case Plain => PlainCore(s.history[i].receipt.core)
    case ForAdmission(a) => AdmittedAt(w, s.history, i)
    case ForRedemption(r) =>
      && RedemptionOk(w, s.history, s.grants, r) && s.grants[r.execution.token] < i
      && Tells(w, s.golds, r, s.history[i].receipt.core)
      && At(s.places, r.execution.token, Recorded(i))
  }

  ghost predicate HistoryOk(w: World, s: State) {
    forall i | 0 <= i < |s.history| :: EntryOk(w, s, i)
  }

  /** Each token stands for one admission receipt, and no two tokens for the same. */
  ghost predicate GrantOk(w: World, s: State, t: string)
    requires t in s.grants
  {
    && AdmittedAt(w, s.history, s.grants[t])
    && s.grants[t] in s.claims && s.claims[s.grants[t]] == Issued(t)
    && t in s.places
  }

  ghost predicate GrantsOk(w: World, s: State) {
    && (forall t | t in s.grants :: GrantOk(w, s, t))
    && (forall at | at in s.claims :: at < |s.history|)
    && (forall t | t in s.places :: t in s.grants)
  }

  /** A live ticket is the one issued for its token, and is listed under its own client. */
  ghost predicate TicketOk(w: World, s: State, t: string)
    requires t in s.tables.tickets
  {
    && t in s.grants && AdmittedAt(w, s.history, s.grants[t])
    && s.tables.tickets[t] == TicketOf(w, s.history[s.grants[t]].cause.admission, s.history[s.grants[t]].receipt.id)
    && At(s.places, t, Live)
    && t in ListedUnder(s.tables.byClient, s.tables.tickets[t].client)
  }

  /** A token is listed only under the client it was issued to. */
  ghost predicate ListingOk(w: World, s: State, client: string)
    requires client in s.tables.byClient
  {
    forall t | t in s.tables.byClient[client] :: IssuedTo(w, s, t, client)
  }

  ghost predicate IssuedTo(w: World, s: State, t: string, client: string) {
    t in s.grants && AdmittedAt(w, s.history, s.grants[t]) && s.history[s.grants[t]].cause.admission.client == client
  }

  ghost predicate TablesOk(w: World, s: State) {
    && (forall t | t in s.tables.tickets :: TicketOk(w, s, t))
    && (forall client | client in s.tables.byClient :: ListingOk(w, s, client))
  }

  ghost predicate Uncalled(golds: seq<GoldCall>, token: string) {
    forall g | 0 <= g < |golds| :: golds[g].redemption.execution.token != token
  }

  ghost predicate GoldOk(w: World, s: State, g: nat)
    requires g < |s.golds|
  {
    var r := s.golds[g].redemption;
    && RedemptionOk(w, s.history, s.grants, r) && s.grants[r.execution.token] < s.golds[g].at <= |s.history|
    && ScopeField(r.ticket.capability, r.execution.proposal).Fine?
    && r.execution.token in s.places && s.places[r.execution.token] != Live
    && Uncalled(s.golds[..g], r.execution.token)
  }

  ghost predicate GoldsOk(w: World, s: State) {
    forall g | 0 <= g < |s.golds| :: GoldOk(w, s, g)
  }

  ghost predicate PhaseOk(w: World, s: State, c: nat, ph: Phase) {
    match ph
    case Idle(client, session) => SessionOk(w, session)
    case Reporting(core, Hangup) => PlainCore(core)
    case Reporting(core, Resume(client, session)) => PlainCore(core) && SessionOk(w, session)
    case Reporting(core, Grant(a)) => GrantsAdmission(w, a, core)
    case Reporting(core, Settle(r)) =>
      RedemptionOk(w, s.history, s.grants, r) && Tells(w, s.golds, r, core) && At(s.places, r.execution.token, Held(c))
    case Granted(a, at) =>
      && AdmittedAt(w, s.history, at) && s.history[at].cause.admission == a
      && at in s.claims && s.claims[at] == Pending(c)
    case Calling(r) =>
      && RedemptionOk(w, s.history, s.grants, r) && ScopeField(r.ticket.capability, r.execution.proposal).Fine?
      && At(s.places, r.execution.token, Held(c)) && Uncalled(s.golds, r.execution.token)
    case Awaiting(r) =>
      && RedemptionOk(w, s.history, s.grants, r) && ScopeField(r.ticket.capability, r.execution.proposal).Fine?
      && At(s.places, r.execution.token, Held(c)) && WasCalled(s.golds, r)
    case _ => true
  }

  ghost predicate ConnsOk(w: World, s: State) {
    forall c | c in s.conns :: PhaseOk(w, s, c, s.conns[c])
  }

  ghost predicate Invariant(w: World, s: State) {
    HistoryOk(w, s) && GrantsOk(w, s) && TablesOk(w, s) && GoldsOk(w, s) && ConnsOk(w, s)
  }

  // ------------------------------------------------------- what stays as it was

  ghost predicate Submap<K, V>(m: map<K, V>, m': map<K, V>) {
    forall k | k in m :: k in m' && m'[k] == m[k]
  }

  lemma AdmittedStays(w: World, h: seq<Entry>, h': seq<Entry>, at: nat)
    requires h <= h' && AdmittedAt(w, h, at)
    ensures AdmittedAt(w, h', at) && h'[at] == h[at]
  {
    hide GrantsAdmission;
  }

  lemma RedemptionStays(w: World, s: State, s': State, r: Redemption)
    requires s.history <= s'.history && Submap(s.grants, s'.grants) && RedemptionOk(w, s.history, s.grants, r)
    ensures RedemptionOk(w, s'.history, s'.grants, r) && s'.grants[r.execution.token] == s.grants[r.execution.token]
  {
    hide AdmittedAt, EnvelopeOk, SessionOk, TicketOf;
    AdmittedStays(w, s.history, s'.history, s.grants[r.execution.token]);
  }

  lemma TellingStays(w: World, golds: seq<GoldCall>, golds': seq<GoldCall>, r: Redemption, core: Core)
    requires golds <= golds' && Tells(w, golds, r, core)
    ensures Tells(w, golds', r, core)
  {
    hide TellsOutcome;
    if core.extra.GoldOutcome? {
      CallStays(golds, golds', r);
    }
  }

  lemma CallStays(golds: seq<GoldCall>, golds': seq<GoldCall>, r: Redemption)
    requires golds <= golds' && WasCalled(golds, r)
    ensures WasCalled(golds', r)
  {
    var g :| 0 <= g < |golds| && golds[g].redemption == r;
    assert golds'[g].redemption == r;
  }

  lemma EntryStays(w: World, s: State, s': State, i: nat)
    requires s.golds <= s'.golds && s.history <= s'.history && Submap(s.grants, s'.grants) && i < |s.history|
             && EntryOk(w, s, i)
    requires s.history[i].cause.ForRedemption? ==>
               var token := s.history[i].cause.redemption.execution.token;
               At(s.places, token, Recorded(i)) ==> At(s'.places, token, Recorded(i))
    ensures EntryOk(w, s', i)
  {
    hide AdmittedAt, RedemptionOk, Tells, PlainCore;
    match s.history[i].cause
    case Plain =>
    case ForAdmission(a) => AdmittedStays(w, s.history, s'.history, i);
    case ForRedemption(r) =>
      RedemptionStays(w, s, s', r);
      TellingStays(w, s.golds, s'.golds, r, s.history[i].receipt.core);
  }

  lemma GrantStays(w: World, s: State, s': State, t: string)
    requires s.history <= s'.history && Submap(s.grants, s'.grants) && t in s.grants && GrantOk(w, s, t)
    requires s.grants[t] in s'.claims && s'.claims[s.grants[t]] == Issued(t) && t in s'.places
    ensures GrantOk(w, s', t)
  {
    hide AdmittedAt;
    AdmittedStays(w, s.history, s'.history, s.grants[t]);
  }

  lemma TicketStays(w: World, s: State, s': State, t: string)
    requires s.history <= s'.history && Submap(s.grants, s'.grants) && t in s.tables.tickets && TicketOk(w, s, t)
    requires t in s'.tables.tickets && s'.tables.tickets[t] == s.tables.tickets[t] && At(s'.places, t, Live)
    requires t in ListedUnder(s'.tables.byClient, s'.tables.tickets[t].client)
    ensures TicketOk(w, s', t)
  {
    hide AdmittedAt, TicketOf;
    AdmittedStays(w, s.history, s'.history, s.grants[t]);
  }

  lemma ListingStays(w: World, s: State, s': State, client: string)
    requires s.history <= s'.history && Submap(s.grants, s'.grants) && client in s.tables.byClient
             && ListingOk(w, s, client)
    requires client in s'.tables.byClient && s'.tables.byClient[client] == s.tables.byClient[client]
    ensures ListingOk(w, s', client)
  {
    hide GrantsAdmission;
    forall t | t in s.tables.byClient[client]
      ensures IssuedTo(w, s', t, client)
    {
      assert IssuedTo(w, s, t, client);
      AdmittedStays(w, s.history, s'.history, s.grants[t]);
    }
  }

  lemma GoldStays(w: World, s: State, s': State, g: nat)
    requires s.history <= s'.history && Submap(s.grants, s'.grants) && s.golds <= s'.golds && g < |s.golds|
             && GoldOk(w, s, g)
    requires var token := s.golds[g].redemption.execution.token; token in s'.places && s'.places[token] != Live
    ensures GoldOk(w, s', g)
  {
    hide RedemptionOk, ScopeField;
    RedemptionStays(w, s, s', s.golds[g].redemption);
    assert s'.golds[..g] == s.golds[..g];
  }

  lemma PhaseStays(w: World, s: State, s': State, c: nat, ph: Phase)
    requires s.golds <= s'.golds && s.history <= s'.history && Submap(s.grants, s'.grants) && PhaseOk(w, s, c, ph)
    requires ph.Granted? && At1(s.claims, ph.at, Pending(c)) ==> At1(s'.claims, ph.at, Pending(c))
    requires forall r | HoldsTicket(ph, r) && At(s.places, r.execution.token, Held(c)) ::
               At(s'.places, r.execution.token, Held(c))
               && (Uncalled(s.golds, r.execution.token) ==> Uncalled(s'.golds, r.execution.token))
    ensures PhaseOk(w, s', c, ph)
  {
    hide AdmittedAt, RedemptionOk, Tells, PlainCore, SessionOk, ScopeField, GrantsAdmission, Uncalled, WasCalled;
    match ph
    case Reporting(core, Settle(r)) =>
      assert HoldsTicket(ph, r);
      RedemptionStays(w, s, s', r);
      TellingStays(w, s.golds, s'.golds, r, core);
    case Calling(r) =>
      assert HoldsTicket(ph, r);
      RedemptionStays(w, s, s', r);
    case Awaiting(r) =>
      assert HoldsTicket(ph, r);
      RedemptionStays(w, s, s', r);
      CallStays(s.golds, s'.golds, r);
    case Granted(_, at) => AdmittedStays(w, s.history, s'.history, at);
    case _ =>
  }

  ghost predicate HoldsTicket(ph: Phase, r: Redemption) {
    ph == Calling(r) || ph == Awaiting(r) || (ph.Reporting? && ph.next == Settle(r))
  }

  ghost predicate At1(claims: map<nat, Claim>, at: nat, claim: Claim) {
    at in claims && claims[at] == claim
  }

  /** Nothing that another connection, an older receipt or an older call relies on has changed. */
  ghost predicate Later(s: State, s': State, c: nat) {
    && s.history <= s'.history && Submap(s.grants, s'.grants) && s.golds <= s'.golds
    && (forall t | t in s.grants && At1(s.claims, s.grants[t], Issued(t)) :: At1(s'.claims, s.grants[t], Issued(t)))
    && (forall c', at | c' != c && At1(s.claims, at, Pending(c')) :: At1(s'.claims, at, Pending(c')))
    && (forall t | t in s.places :: t in s'.places && (s.places[t] != Live ==> s'.places[t] != Live))
    && (forall t, i | At(s.places, t, Recorded(i)) :: At(s'.places, t, Recorded(i)))
    && (forall t, c' | c' != c && At(s.places, t, Held(c')) ::
          At(s'.places, t, Held(c')) && (Uncalled(s.golds, t) ==> Uncalled(s'.golds, t)))
    && (forall c' | c' in s'.conns && c' != c :: c' in s.conns && s'.conns[c'] == s.conns[c'])
  }

  /** Whatever is new is in order. */
  ghost predicate NewOk(w: World, s: State, s': State, c: nat) {
    && (forall i | |s.history| <= i < |s'.history| :: EntryOk(w, s', i))
    && NewGrantsOk(w, s, s') && NewTablesOk(w, s, s')
    && (forall g | |s.golds| <= g < |s'.golds| :: GoldOk(w, s', g))
    && (c in s'.conns ==> PhaseOk(w, s', c, s'.conns[c]))
  }

  ghost predicate NewGrantsOk(w: World, s: State, s': State) {
    && (forall t | t in s'.grants && t !in s.grants :: GrantOk(w, s', t))
    && (forall at | at in s'.claims :: at < |s'.history|)
    && (forall t | t in s'.places :: t in s'.grants)
  }

  ghost predicate NewTablesOk(w: World, s: State, s': State) {
    && (forall t | t in s'.tables.tickets ::
          || TicketOk(w, s', t)
          || (&& t in s.tables.tickets && s'.tables.tickets[t] == s.tables.tickets[t]
              && t in ListedUnder(s'.tables.byClient, s'.tables.tickets[t].client)
              && (At(s.places, t, Live) ==> At(s'.places, t, Live))))
    && (forall client | client in s'.tables.byClient ::
          || ListingOk(w, s', client)
          || (client in s.tables.byClient && s'.tables.byClient[client] == s.tables.byClient[client]))
  }

  lemma InvariantStays(w: World, s: State, s': State, c: nat)
    requires Invariant(w, s) && Later(s, s', c) && NewOk(w, s, s', c)
    ensures Invariant(w, s')
  {
    HistoryStays(w, s, s', c);
    GrantsStay(w, s, s', c);
    TablesStay(w, s, s', c);
    GoldsStay(w, s, s', c);
    ConnsStay(w, s, s', c);
    hide HistoryOk, GrantsOk, TablesOk, GoldsOk, ConnsOk, Later, NewOk;
  }

  lemma HistoryStays(w: World, s: State, s': State, c: nat)
    requires HistoryOk(w, s) && Later(s, s', c) && NewOk(w, s, s', c)
    ensures HistoryOk(w, s')
  {
    hide EntryOk;
    forall i | 0 <= i < |s.history|
      ensures EntryOk(w, s', i)
    {
      EntryStays(w, s, s', i);
    }
  }

  lemma GrantsStay(w: World, s: State, s': State, c: nat)
    requires GrantsOk(w, s) && Later(s, s', c) && NewOk(w, s, s', c)
    ensures GrantsOk(w, s')
  {
    hide AdmittedAt;
    forall t | t in s.grants
      ensures GrantOk(w, s', t)
    {
      assert GrantOk(w, s, t);
      GrantStays(w, s, s', t);
    }
  }

  lemma TablesStay(w: World, s: State, s': State, c: nat)
    requires TablesOk(w, s) && Later(s, s', c) && NewOk(w, s, s', c)
    ensures TablesOk(w, s')
  {
    hide AdmittedAt, TicketOf, ListingOk;
    forall t | t in s'.tables.tickets
      ensures TicketOk(w, s', t)
    {
      if !TicketOk(w, s', t) {
        TicketStays(w, s, s', t);
      }
    }
    forall client | client in s'.tables.byClient
      ensures ListingOk(w, s', client)
    {
      if !ListingOk(w, s', client) {
        ListingStays(w, s, s', client);
      }
    }
  }

  lemma GoldsStay(w: World, s: State, s': State, c: nat)
    requires GoldsOk(w, s) && Later(s, s', c) && NewOk(w, s, s', c)
    ensures GoldsOk(w, s')
  {
    hide RedemptionOk, ScopeField;
    forall g | 0 <= g < |s.golds|
      ensures GoldOk(w, s', g)
    {
      assert GoldOk(w, s, g);
      GoldStays(w, s, s', g);
    }
  }

  lemma ConnsStay(w: World, s: State, s': State, c: nat)
    requires ConnsOk(w, s) && Later(s, s', c) && NewOk(w, s, s', c)
    ensures ConnsOk(w, s')
  {
    hide AdmittedAt, RedemptionOk, Tells, PlainCore, SessionOk, ScopeField, GrantsAdmission, Uncalled;
    forall c' | c' in s'.conns
      ensures PhaseOk(w, s', c', s'.conns[c'])
    {
      if c' != c {
        assert PhaseOk(w, s, c', s.conns[c']);
        PhaseStays(w, s, s', c', s.conns[c']);
      }
    }
  }

  // ---------------------------------------------------------- steps of the tables

  lemma NumbersAreOk(w: World, s: State)
    requires Invariant(w, s)
    ensures forall at | at in s.claims :: at < |s.history|
    ensures forall t | t in s.places :: t in s.grants
  {
    hide HistoryOk, GrantOk, TablesOk, GoldsOk, ConnsOk;
  }

  /** Only phases, answers, registry and sessions change, and tickets only disappear from both tables alike. */
  ghost predicate OnlyMoves(s: State, s': State) {
    && s' == s.(tables := s'.tables, conns := s'.conns, answers := s'.answers)
    && (forall t | t in s'.tables.tickets :: t in s.tables.tickets && s'.tables.tickets[t] == s.tables.tickets[t]
                                             && t in ListedUnder(s'.tables.byClient, s'.tables.tickets[t].client))
    && (forall client | client in s'.tables.byClient ::
          client in s.tables.byClient && s'.tables.byClient[client] == s.tables.byClient[client])
  }

  lemma MovesKeep(w: World, s: State, s': State, c: nat)
    requires Invariant(w, s) && OnlyMoves(s, s')
    requires forall c' | c' in s'.conns && c' != c :: c' in s.conns && s'.conns[c'] == s.conns[c']
    requires c in s'.conns ==> PhaseOk(w, s', c, s'.conns[c])
    ensures Invariant(w, s')
  {
    hide Invariant, PhaseOk, EntryOk, GrantOk, TicketOk, ListingOk, GoldOk, Uncalled;
    NumbersAreOk(w, s);
    InvariantStays(w, s, s', c);
  }

  /** A connection may enter any phase that is justified. */
  lemma MoveKeeps(w: World, s: State, c: nat, ph: Phase)
    requires Invariant(w, s) && PhaseOk(w, s, c, ph)
    ensures Invariant(w, Moved(s, c, ph))
  {
    hide Invariant, AdmittedAt, RedemptionOk, Tells, SessionOk, PlainCore, ScopeField;
    TicketsAreListed(w, s);
    MovesKeep(w, s, Moved(s, c, ph), c);
  }

  lemma HostKeeps(w: World, s: State, e: Event)
    requires Invariant(w, s)
    requires e.HostRegister? || e.HostUnregister? || e.InvalidateAll? || e.InvalidateClient? || e.Connect? || e.Break?
    ensures Invariant(w, Step(w, s, e))
  {
    hide Invariant, AdmittedAt, RedemptionOk, Tells, SessionOk, PlainCore, ScopeField, ConnStep;
    if e.Connect? {
      MoveKeeps(w, s, e.conn, Fresh);
    } else if e.Break? {
      MoveKeeps(w, s, e.conn, Closed);
    } else {
      TablesKeep(w, s, Step(w, s, e));
    }
  }

  lemma TablesKeep(w: World, s: State, s': State)
    requires Invariant(w, s) && s' == s.(tables := s'.tables)
    requires || (s'.tables.tickets == s.tables.tickets && s'.tables.byClient == s.tables.byClient)
             || (s'.tables.tickets == map[] && s'.tables.byClient == map[])
             || exists client :: s'.tables == WithoutClient(s.tables, client)
    ensures Invariant(w, s')
  {
    hide Invariant, AdmittedAt, RedemptionOk, Tells, SessionOk, PlainCore, ScopeField;
    TicketsAreListed(w, s);
    if 0 in s.conns {
      PhaseIsOk(w, s, 0);
    }
    MovesKeep(w, s, s', 0);
  }

  lemma PhaseIsOk(w: World, s: State, c: nat)
    requires Invariant(w, s) && c in s.conns
    ensures PhaseOk(w, s, c, s.conns[c])
  {
    hide PhaseOk;
  }

  lemma TicketsAreListed(w: World, s: State)
    requires Invariant(w, s)
    ensures forall t | t in s.tables.tickets :: t in ListedUnder(s.tables.byClient, s.tables.tickets[t].client)
    ensures forall t, client | t in s.tables.tickets && t in ListedUnder(s.tables.byClient, client) ::
              s.tables.tickets[t].client == client
  {
    hide AdmittedAt, RedemptionOk, Tells, SessionOk, PlainCore, ScopeField, TicketOf;
    forall t | t in s.tables.tickets
      ensures t in ListedUnder(s.tables.byClient, s.tables.tickets[t].client)
    {
      assert TicketOk(w, s, t);
    }
    forall t, client | t in s.tables.tickets && t in ListedUnder(s.tables.byClient, client)
      ensures s.tables.tickets[t].client == client
    {
      assert TicketOk(w, s, t) && ListingOk(w, s, client);
    }
  }

  lemma RegisterFrameIsSound(w: World, registry: map<string, Slot>, msg: Dict, x: Outside)
    ensures match RegisterFrame(w, registry, msg, x)
            case Drop => true
            case Refuse(core) => PlainCore(core)
            case Accept(_, session) => SessionOk(w, session)
  {
  }

  lemma ReceiveFirstKeeps(w: World, s: State, c: nat, frame: Frame, x: Outside)
    requires Invariant(w, s) && c in s.conns
    ensures Invariant(w, ReceiveFirst(w, s, c, frame, x))
  {
    hide Invariant, AdmittedAt, RedemptionOk, Tells, RegisterFrame, SessionOk, PlainCore;
    TicketsAreListed(w, s);
    if frame.Message? {
      RegisterFrameIsSound(w, s.tables.registry, frame.msg, x);
    }
    MovesKeep(w, s, ReceiveFirst(w, s, c, frame, x), c);
  }

  lemma AdmitFrameIsSound(w: World, client: string, session: Session, msg: Dict, x: Outside)
    ensures match AdmitFrame(w, client, session, msg, x)
            case KillAdmit(_) => true
            case Reject(core) => PlainCore(core)
            case Admit(a) => a.client == client && a.session == session && Admissible(w, session, a.proposal)
  {
    if Get(msg, "proposal").VDict? && x.resolved.Some? {
      var a := Admission(client, session, Get(msg, "proposal").fields, x.resolved.value, Get(msg, "context").VDict?,
                         x.now);
      ProposalIsAdmittedIffAdmissible(w, a);
      RejectionsArePlain(w, a);
    }
  }

  lemma RejectionsArePlain(w: World, a: Admission)
    ensures AdmitProposal(w, a).Reject? ==> PlainCore(AdmitProposal(w, a).core)
  {
  }

  lemma ReceiveAdmitKeeps(w: World, s: State, c: nat, client: string, session: Session, msg: Dict, x: Outside)
    requires Invariant(w, s) && c in s.conns && s.conns[c] == Idle(client, session)
    ensures Invariant(w, ReceiveAdmit(w, s, c, client, session, msg, x))
  {
    hide Invariant, AdmittedAt, RedemptionOk, Tells, SessionOk, PlainCore, AdmitFrame, Admissible, AdmittedCore;
    PhaseIsOk(w, s, c);
    AdmitFrameIsSound(w, client, session, msg, x);
    MoveKeeps(w, s, c, ReceiveAdmit(w, s, c, client, session, msg, x).conns[c]);
  }

  // ------------------------------------------------------------ redeeming a ticket

  /** A live ticket has been neither redeemed nor used. */
  lemma LiveIsUnused(w: World, s: State, token: string)
    requires Invariant(w, s) && token in s.tables.tickets
    ensures Uncalled(s.golds, token)
  {
    hide AdmittedAt, RedemptionOk, Tells, SessionOk, PlainCore, ScopeField, TicketOf;
    assert TicketOk(w, s, token);
    forall g | 0 <= g < |s.golds|
      ensures s.golds[g].redemption.execution.token != token
    {
      assert GoldOk(w, s, g);
    }
  }

  lemma TicketIsOk(w: World, s: State, t: string)
    requires Invariant(w, s) && t in s.tables.tickets
    ensures TicketOk(w, s, t)
  {
    hide TicketOk;
  }

  lemma PlaceMoves(places: map<string, Place>, token: string, p: Place, c: nat)
    requires token in places ==> places[token] == Live || places[token] == Held(c)
    ensures forall t, i | At(places, t, Recorded(i)) :: At(places[token := p], t, Recorded(i))
    ensures forall t, c' | c' != c && At(places, t, Held(c')) :: At(places[token := p], t, Held(c'))
  {
  }

  lemma TakenIsLater(s: State, c: nat, token: string)
    requires c in s.conns && At(s.places, token, Live)
    ensures Later(s, Taken(s, c, token), c)
  {
    hide Uncalled;
    PlaceMoves(s.places, token, Held(c), c);
  }

  lemma TakingKeeps(w: World, s: State, c: nat, token: string)
    requires Invariant(w, s) && c in s.conns && s.conns[c].Idle? && token in s.tables.tickets
    ensures Invariant(w, Taken(s, c, token))
  {
    hide Invariant, EntryOk, GrantOk, ListingOk, GoldOk, Uncalled, AdmittedAt, TicketOf, SessionOk, Later;
    TicketIsOk(w, s, token);
    PhaseIsOk(w, s, c);
    NumbersAreOk(w, s);
    TicketsAreListed(w, s);
    TakenIsLater(s, c, token);
    InvariantStays(w, s, Taken(s, c, token), c);
  }

  lemma ExecuteFrameIsSound(w: World, client: string, e: Execution, ticket: Ticket)
    ensures var v := ExecuteFrame(w, client, e, ticket);
            v.Unscoped? || v.Invoke? ==>
              && ticket.client == client && ticket.inputHash == w.inputHash(e.proposal) && EnvelopeOk(w, e)
              && (v.Invoke? <==> ScopeField(ticket.capability, e.proposal).Fine?)
              && (v.Unscoped? ==> ScopeField(ticket.capability, e.proposal) == Faulty(v.detail))
  {
  }

  lemma UnscopedTells(w: World, golds: seq<GoldCall>, r: Redemption, detail: Detail, x: Outside)
    requires ScopeField(r.ticket.capability, r.execution.proposal) == Faulty(detail)
    ensures var ph := PhaseAfter(w, r, Unscoped(detail), x);
            ph.Reporting? && ph.next == Settle(r) && Tells(w, golds, r, ph.core)
  {
  }

  lemma TakenTicketRedeems(w: World, s: State, e: Execution, client: string, session: Session)
    requires Invariant(w, s) && e.token in s.tables.tickets && SessionOk(w, session)
    requires var ticket := s.tables.tickets[e.token];
             ticket.client == client && ticket.inputHash == w.inputHash(e.proposal) && EnvelopeOk(w, e)
    ensures RedemptionOk(w, s.history, s.grants, Redemption(client, session, s.tables.tickets[e.token], e))
  {
    hide Invariant, GrantsAdmission, SessionOk, EnvelopeOk;
    TicketIsOk(w, s, e.token);
  }

  /** The phase that follows from the checks on a live ticket is justified. */
  lemma JudgedPhaseIsOk(w: World, s: State, c: nat, r: Redemption, x: Outside)
    requires Invariant(w, s) && r.execution.token in s.tables.tickets && r.ticket == s.tables.tickets[r.execution.token]
    requires SessionOk(w, r.session)
    ensures PhaseOk(w, Taken(s, c, r.execution.token), c,
                    PhaseAfter(w, r, ExecuteFrame(w, r.client, r.execution, r.ticket), x))
  {
    hide Invariant, OutcomeCore, ExecuteFrame, AdmittedAt, RedemptionOk, TellsOutcome, EnvelopeOk, SessionOk,
         ScopeField, Tells;
    var v := ExecuteFrame(w, r.client, r.execution, r.ticket);
    ExecuteFrameIsSound(w, r.client, r.execution, r.ticket);
    LiveIsUnused(w, s, r.execution.token);
    if v.Unscoped? || v.Invoke? {
      TakenTicketRedeems(w, s, r.execution, r.client, r.session);
    }
    if v.Unscoped? {
      UnscopedTells(w, s.golds, r, v.detail, x);
    }
  }

  lemma ReceiveExecuteKeeps(w: World, s: State, c: nat, client: string, session: Session, msg: Dict, x: Outside)
    requires Invariant(w, s) && c in s.conns && s.conns[c] == Idle(client, session)
    ensures Invariant(w, ReceiveExecute(w, s, c, client, session, msg, x))
  {
    hide Invariant, ExecuteFrame, PhaseAfter, PhaseOk, SessionOk;
    SessionIsOk(w, s, c);
    if ExecutionOf(msg).None? {
      DoomIsOk(w, s, c, client, ExecuteMalformed, x);
      MoveKeeps(w, s, c, Doomed(client, ExecuteMalformed, x));
    } else {
      var e := ExecutionOf(msg).value;
      if e.token !in s.tables.tickets {
        DoomIsOk(w, s, c, client, NotAdmitted, x);
        MoveKeeps(w, s, c, Doomed(client, NotAdmitted, x));
      } else {
        var r := Redemption(client, session, s.tables.tickets[e.token], e);
        TakingKeeps(w, s, c, e.token);
        JudgedPhaseIsOk(w, s, c, r, x);
        MoveKeeps(w, Taken(s, c, e.token), c, PhaseAfter(w, r, ExecuteFrame(w, client, e, r.ticket), x));
      }
    }
  }

  lemma SessionIsOk(w: World, s: State, c: nat)
    requires Invariant(w, s) && c in s.conns && s.conns[c].Idle?
    ensures SessionOk(w, s.conns[c].session)
  {
    hide Invariant, SessionOk;
    PhaseIsOk(w, s, c);
  }

  lemma DoomIsOk(w: World, s: State, c: nat, client: string, reason: KillReason, x: Outside)
    ensures PhaseOk(w, s, c, Doomed(client, reason, x))
  {
  }

  lemma DisconnectKeeps(w: World, s: State, c: nat, client: string)
    requires Invariant(w, s)
    ensures Invariant(w, Moved(s, c, Closed).(tables := WithoutClient(s.tables, client)))
  {
    hide Invariant;
    TicketsAreListed(w, s);
    MovesKeep(w, s, Moved(s, c, Closed).(tables := WithoutClient(s.tables, client)), c);
  }

  lemma ReceiveNextKeeps(w: World, s: State, c: nat, client: string, session: Session, frame: Frame, x: Outside)
    requires Invariant(w, s) && c in s.conns && s.conns[c] == Idle(client, session)
    ensures Invariant(w, ReceiveNext(w, s, c, client, session, frame, x))
  {
    hide Invariant, ReceiveAdmit, ReceiveExecute;
    if frame.Message? && Get(frame.msg, "op") == VStr("admit") {
      ReceiveAdmitKeeps(w, s, c, client, session, frame.msg, x);
    } else if frame.Message? && Get(frame.msg, "op") == VStr("execute") {
      ReceiveExecuteKeeps(w, s, c, client, session, frame.msg, x);
    } else if frame.EndOfStream? {
      DisconnectKeeps(w, s, c, client);
    } else {
      MoveKeeps(w, s, c, ReceiveNext(w, s, c, client, session, frame, x).conns[c]);
    }
  }

  lemma ReceiveKeeps(w: World, s: State, e: Event)
    requires Invariant(w, s) && e.Receive?
    ensures Invariant(w, Step(w, s, e))
  {
    hide Invariant, ReceiveFirst, ReceiveNext;
    if e.conn in s.conns && s.conns[e.conn].Fresh? {
      ReceiveFirstKeeps(w, s, e.conn, e.frame, e.x);
    } else if e.conn in s.conns && s.conns[e.conn].Idle? {
      ReceiveNextKeeps(w, s, e.conn, s.conns[e.conn].client, s.conns[e.conn].session, e.frame, e.x);
    }
  }

  lemma PopRegistryKeeps(w: World, s: State, e: Event)
    requires Invariant(w, s) && e.PopRegistry?
    ensures Invariant(w, Step(w, s, e))
  {
    hide Invariant;
    if e.conn in s.conns && s.conns[e.conn].Doomed? {
      TicketsAreListed(w, s);
      MovesKeep(w, s, Step(w, s, e), e.conn);
    }
  }

  // ------------------------------------------------------------- making a receipt

  ghost predicate EntryFits(w: World, s: State, core: Core, cause: Cause) {
    match cause
    case Plain => PlainCore(core)
    case ForAdmission(a) => GrantsAdmission(w, a, core)
    case ForRedemption(r) => RedemptionOk(w, s.history, s.grants, r) && Tells(w, s.golds, r, core)
  }

  /** The place of the token, if the new receipt is the outcome of its redemption. */
  ghost function PlacesWith(s: State, cause: Cause): map<string, Place> {
    if cause.ForRedemption? then s.places[cause.redemption.execution.token := Recorded(|s.history|)] else s.places
  }

  ghost function WithEntry(w: World, s: State, core: Core, cause: Cause): State {
    Appended(w, s, core, cause).(places := PlacesWith(s, cause))
  }

  lemma NewEntryOk(w: World, s: State, core: Core, cause: Cause)
    requires EntryFits(w, s, core, cause)
    ensures EntryOk(w, WithEntry(w, s, core, cause), |s.history|)
  {
    hide Tells, PlainCore, GrantsAdmission, RedemptionOk;
    var s' := WithEntry(w, s, core, cause);
    if cause.ForRedemption? {
      RedemptionStays(w, s, s', cause.redemption);
      RedeemedBefore(w, s, cause.redemption);
    }
  }

  lemma RedeemedBefore(w: World, s: State, r: Redemption)
    requires RedemptionOk(w, s.history, s.grants, r)
    ensures r.execution.token in s.grants && s.grants[r.execution.token] < |s.history|
  {
    hide GrantsAdmission, EnvelopeOk, SessionOk, TicketOf;
  }

  /** A connection that has just left its phase may add a fitting receipt. */
  lemma EntryKeeps(w: World, s: State, c: nat, core: Core, cause: Cause)
    requires Invariant(w, s) && c in s.conns && s.conns[c] == Closed
    requires EntryFits(w, s, core, cause)
    requires cause.ForRedemption? ==> At(s.places, cause.redemption.execution.token, Held(c))
    ensures Invariant(w, WithEntry(w, s, core, cause))
  {
    hide Invariant, EntryOk, GrantOk, ListingOk, GoldOk, AdmittedAt, RedemptionOk, Tells, PlainCore, SessionOk,
         GrantsAdmission, TicketOk, Uncalled, ScopeField;
    NewEntryOk(w, s, core, cause);
    NumbersAreOk(w, s);
    TicketsAreListed(w, s);
    InvariantStays(w, s, WithEntry(w, s, core, cause), c);
  }

  /** The newest receipt, if it grants an admission, may be turned into a ticket by the connection that made it. */
  lemma ClaimKeeps(w: World, s: State, c: nat, at: nat)
    requires Invariant(w, s) && at < |s.history| && at !in s.claims
    ensures Invariant(w, s.(claims := s.claims[at := Pending(c)]))
  {
    hide Invariant, EntryOk, GrantOk, ListingOk, GoldOk, AdmittedAt, RedemptionOk, Tells, PlainCore, SessionOk,
         GrantsAdmission, TicketOk, Uncalled, ScopeField;
    NumbersAreOk(w, s);
    TicketsAreListed(w, s);
    if c in s.conns {
      PhaseIsOk(w, s, c);
    }
    InvariantStays(w, s, s.(claims := s.claims[at := Pending(c)]), c);
  }

  lemma ReportKeeps(w: World, s: State, c: nat)
    requires Invariant(w, s) && c in s.conns && s.conns[c].Reporting?
    ensures Invariant(w, Reported(w, s, c, s.conns[c].core, s.conns[c].next))
  {
    hide Invariant, AdmittedAt, RedemptionOk, Tells, PlainCore, SessionOk, GrantsAdmission;
    PhaseIsOk(w, s, c);
    NumbersAreOk(w, s);
    MoveKeeps(w, s, c, Closed);
    var s1 := Moved(s, c, Closed);
    var core, n := s.conns[c].core, |s.history|;
    var ph := Reported(w, s, c, core, s.conns[c].next).conns[c];
    assert s.conns[c := Closed][c := ph] == s.conns[c := ph];
    match s.conns[c].next
    case Hangup =>
      EntryKeeps(w, s1, c, core, Plain);
    case Resume(client, session) =>
      EntryKeeps(w, s1, c, core, Plain);
      MoveKeeps(w, WithEntry(w, s1, core, Plain), c, Idle(client, session));
    case Grant(a) =>
      EntryKeeps(w, s1, c, core, ForAdmission(a));
      var s2 := WithEntry(w, s1, core, ForAdmission(a));
      ClaimKeeps(w, s2, c, n);
      NewEntryIsAdmission(w, s, core, a);
      MoveKeeps(w, s2.(claims := s2.claims[n := Pending(c)]), c, Granted(a, n));
    case Settle(r) =>
      EntryKeeps(w, s1, c, core, ForRedemption(r));
      RedeemerIsOk(w, s.history, s.grants, r);
      MoveKeeps(w, WithEntry(w, s1, core, ForRedemption(r)), c, Idle(r.client, r.session));
  }

  lemma NewEntryIsAdmission(w: World, s: State, core: Core, a: Admission)
    requires GrantsAdmission(w, a, core)
    ensures AdmittedAt(w, Appended(w, s, core, ForAdmission(a)).history, |s.history|)
  {
    hide GrantsAdmission;
  }

  lemma RedeemerIsOk(w: World, h: seq<Entry>, grants: map<string, nat>, r: Redemption)
    requires RedemptionOk(w, h, grants, r)
    ensures SessionOk(w, r.session)
  {
    hide AdmittedAt, SessionOk, EnvelopeOk, TicketOf;
  }

  lemma AdmitterIsOk(w: World, h: seq<Entry>, at: nat)
    requires AdmittedAt(w, h, at)
    ensures SessionOk(w, h[at].cause.admission.session)
  {
    hide SessionOk, Admissible, AdmittedCore;
  }

  // ------------------------------------------------------------- storing a ticket

  lemma StoredIsLater(w: World, s: State, c: nat, a: Admission, at: nat, token: string)
    requires at < |s.history| && At1(s.claims, at, Pending(c)) && token !in s.grants && token !in s.places
    ensures Later(s, Stored(w, s, c, a, at, token), c)
  {
    hide Uncalled, TicketOf;
    PlaceMoves(s.places, token, Live, c);
  }

  lemma StoredTablesAreNew(w: World, s: State, c: nat, a: Admission, at: nat, token: string)
    requires Invariant(w, s) && AdmittedAt(w, s.history, at) && s.history[at].cause.admission == a && token !in s.grants
    requires at < |s.history|
    ensures NewTablesOk(w, s, Stored(w, s, c, a, at, token))
  {
    hide Invariant, GrantOk, TicketOk, ListingOk, AdmittedAt, TicketOf, IssuedTo;
    TicketsAreListed(w, s);
    var s' := Stored(w, s, c, a, at, token);
    NewGrantOk(w, s, s', at, token);
    TicketIsForClient(w, a, s.history[at].receipt.id);
    NewListingOk(w, s, s', token, a.client);
  }

  lemma StoredIsNew(w: World, s: State, c: nat, a: Admission, at: nat, token: string)
    requires Invariant(w, s) && AdmittedAt(w, s.history, at) && s.history[at].cause.admission == a && token !in s.grants
    requires at < |s.history|
    ensures NewOk(w, s, Stored(w, s, c, a, at, token), c)
  {
    hide Invariant, EntryOk, GrantOk, TicketOk, GoldOk, AdmittedAt, SessionOk, TicketOf, NewTablesOk;
    NumbersAreOk(w, s);
    StoredTablesAreNew(w, s, c, a, at, token);
    AdmitterIsOk(w, s.history, at);
    NewGrantOk(w, s, Stored(w, s, c, a, at, token), at, token);
  }

  lemma TicketIsForClient(w: World, a: Admission, rid: string)
    ensures TicketOf(w, a, rid).client == a.client
  {
  }

  lemma StoreKeeps(w: World, s: State, c: nat, a: Admission, at: nat, token: string)
    requires Invariant(w, s) && c in s.conns && s.conns[c] == Granted(a, at) && token !in s.grants
    requires at < |s.history|
    ensures Invariant(w, Stored(w, s, c, a, at, token))
  {
    hide Invariant, AdmittedAt, Later, NewOk, Stored;
    PhaseIsOk(w, s, c);
    NumbersAreOk(w, s);
    StoredIsLater(w, s, c, a, at, token);
    StoredIsNew(w, s, c, a, at, token);
    InvariantStays(w, s, Stored(w, s, c, a, at, token), c);
  }

  lemma NewGrantOk(w: World, s: State, s': State, at: nat, token: string)
    requires AdmittedAt(w, s.history, at) && s'.history == s.history && s'.grants == s.grants[token := at]
    requires At1(s'.claims, at, Issued(token)) && At(s'.places, token, Live)
    requires s'.tables == WithTicket(s.tables, token,
                                     TicketOf(w, s.history[at].cause.admission, s.history[at].receipt.id))
    ensures GrantOk(w, s', token) && TicketOk(w, s', token)
    ensures IssuedTo(w, s', token, s.history[at].cause.admission.client)
  {
    hide GrantsAdmission;
  }

  lemma NewListingOk(w: World, s: State, s': State, token: string, client: string)
    requires Invariant(w, s) && s.history <= s'.history && Submap(s.grants, s'.grants) && IssuedTo(w, s', token, client)
    requires s'.tables.byClient == s.tables.byClient[client := ListedUnder(s.tables.byClient, client) + {token}]
    ensures ListingOk(w, s', client)
  {
    hide AdmittedAt, HistoryOk, GrantsOk, GoldsOk, ConnsOk, TicketOk;
    forall t | t in s'.tables.byClient[client]
      ensures IssuedTo(w, s', t, client)
    {
      if t != token {
        assert ListingOk(w, s, client) && IssuedTo(w, s, t, client);
        AdmittedStays(w, s.history, s'.history, s.grants[t]);
      }
    }
  }

  // ----------------------------------------------------------------- calling Gold

  /** Once Gold has been called, its answer may be reported. */
  lemma AnswerTells(w: World, golds: seq<GoldCall>, r: Redemption, ok: bool, now: string)
    requires ScopeField(r.ticket.capability, r.execution.proposal).Fine? && WasCalled(golds, r)
    ensures Tells(w, golds, r, OutcomeCore(w, r.client, r.session, r.ticket, r.execution.proposal,
                                           OutcomeExtra(r, ok), now))
  {
    hide WasCalled;
  }

  lemma CallIsLast(golds: seq<GoldCall>, at: nat, r: Redemption)
    ensures WasCalled(golds + [GoldCall(r, at)], r) && (golds + [GoldCall(r, at)])[..|golds|] == golds
  {
    assert (golds + [GoldCall(r, at)])[|golds|].redemption == r;
  }

  lemma CallKeeps(w: World, s: State, c: nat, r: Redemption)
    requires Invariant(w, s) && c in s.conns && s.conns[c] == Calling(r)
    ensures Invariant(w, Called(s, c, r))
  {
    hide Invariant, EntryOk, GrantOk, TicketOk, ListingOk, AdmittedAt, RedemptionOk, ScopeField, WasCalled, Tells;
    PhaseIsOk(w, s, c);
    NumbersAreOk(w, s);
    TicketsAreListed(w, s);
    RedeemedBefore(w, s, r);
    CallIsLast(s.golds, |s.history|, r);
    RedemptionStays(w, s, Called(s, c, r), r);
    InvariantStays(w, s, Called(s, c, r), c);
  }

  lemma EndKeeps(w: World, s: State, c: nat, r: Redemption, answer: GoldAnswer, now: string)
    requires Invariant(w, s) && c in s.conns && s.conns[c] == Awaiting(r)
    ensures Invariant(w, Ended(w, s, c, r, answer, now))
  {
    hide Invariant, AdmittedAt, RedemptionOk, ScopeField, WasCalled, Tells, OutcomeCore;
    PhaseIsOk(w, s, c);
    TicketsAreListed(w, s);
    if answer.Answered? {
      AnswerTells(w, s.golds, r, answer.ok, now);
    }
    MovesKeep(w, s, Ended(w, s, c, r, answer, now), c);
  }

  // -------------------------------------------------------------------- every run

  lemma StepKeeps(w: World, s: State, e: Event)
    requires Invariant(w, s)
    ensures Invariant(w, Step(w, s, e))
  {
    hide Invariant, ReceiveFirst, ReceiveNext, Reported, Stored, Called, Ended, Unlisted;
    match e
    case Receive(_, _, _) => ReceiveKeeps(w, s, e);
    case PopRegistry(_) => PopRegistryKeeps(w, s, e);
    case MakeReceipt(c) =>
      if c in s.conns && s.conns[c].Reporting? {
        ReportKeeps(w, s, c);
      }
    case StoreTicket(c, token) =>
      if c in s.conns && s.conns[c].Granted? && token !in s.grants && s.conns[c].at < |s.history| {
        StoreKeeps(w, s, c, s.conns[c].admission, s.conns[c].at, token);
      }
    case CallGold(c) =>
      if c in s.conns && s.conns[c].Calling? {
        CallKeeps(w, s, c, s.conns[c].redemption);
      }
    case GoldEnds(c, answer, now) =>
      if c in s.conns && s.conns[c].Awaiting? {
        EndKeeps(w, s, c, s.conns[c].redemption, answer, now);
      }
    case _ => HostKeeps(w, s, e);
  }

  lemma {:induction false} RunsKeep(w: World, registry: map<string, Slot>, head: string, es: seq<Event>)
    ensures Invariant(w, Run(w, Start(registry, head), es))
  {
    hide Step;
    if es != [] {
      RunsKeep(w, registry, head, es[..|es| - 1]);
      StepKeeps(w, Run(w, Start(registry, head), es[..|es| - 1]), es[|es| - 1]);
    }
  }

  // ---------------------------------------------------- Gold is called as admitted

  ghost predicate HashIsInjective(w: World) {
    forall d1: Dict, d2: Dict | w.inputHash(d1) == w.inputHash(d2) :: d1 == d2
  }

  /** Printing with sorted keys is injective, and only a string equals a string. */
  ghost predicate ComparesExactly(w: World) {
    && (forall v1: Val, v2: Val | w.dumps(v1) == w.dumps(v2) :: v1 == v2)
    && (forall v: Val, t: string | w.sameValue(v, VStr(t)) :: v == VStr(t))
  }

  /** The admission receipt behind a Gold call. */
  ghost function AdmittedFor(s: State, g: nat): nat
    requires g < |s.golds| && s.golds[g].redemption.execution.token in s.grants
  {
    s.grants[s.golds[g].redemption.execution.token]
  }

  lemma GoldIsOk(w: World, s: State, g: nat)
    requires Invariant(w, s) && g < |s.golds|
    ensures GoldOk(w, s, g)
  {
    hide HistoryOk, GrantsOk, TablesOk, ConnsOk, GoldOk;
  }

  /**
   Over every interleaving, each Gold call follows an admission granted to the same client for the same
   proposal hash.
   */
  lemma GoldIsAdmitted(w: World, registry: map<string, Slot>, head: string, es: seq<Event>, g: nat)
    requires g < |Run(w, Start(registry, head), es).golds|
    ensures var s := Run(w, Start(registry, head), es);
            var r := s.golds[g].redemption;
            && r.execution.token in s.grants
            && var at := AdmittedFor(s, g);
               && at < s.golds[g].at <= |s.history| && s.history[at].cause.ForAdmission?
               && s.history[at].receipt.core == AdmittedCore(w, s.history[at].cause.admission)
               && s.history[at].cause.admission.client == r.client
               && w.inputHash(s.history[at].cause.admission.proposal) == w.inputHash(r.execution.proposal)
  {
    hide Run, Invariant, Admissible, SessionOk, EnvelopeOk, TicketOf, AdmittedCore, ScopeField, Uncalled;
    RunsKeep(w, registry, head, es);
    GoldIsOk(w, Run(w, Start(registry, head), es), g);
  }

  /** No two Gold calls rest on the same admission. */
  lemma GoldCallsAreDistinct(w: World, registry: map<string, Slot>, head: string, es: seq<Event>, g1: nat, g2: nat)
    requires g1 < g2 < |Run(w, Start(registry, head), es).golds|
    ensures var s := Run(w, Start(registry, head), es);
            && s.golds[g1].redemption.execution.token in s.grants && s.golds[g2].redemption.execution.token in s.grants
            && AdmittedFor(s, g1) != AdmittedFor(s, g2)
  {
    hide Run, Invariant, AdmittedAt, SessionOk, EnvelopeOk, TicketOf, ScopeField;
    RunsKeep(w, registry, head, es);
    var s := Run(w, Start(registry, head), es);
    GoldIsOk(w, s, g1);
    GoldIsOk(w, s, g2);
    assert s.golds[..g2][g1] == s.golds[g1];
    TokensAreDistinct(w, s, s.golds[g1].redemption.execution.token, s.golds[g2].redemption.execution.token);
  }

  lemma TokensAreDistinct(w: World, s: State, t1: string, t2: string)
    requires Invariant(w, s) && t1 in s.grants && t2 in s.grants && t1 != t2
    ensures s.grants[t1] != s.grants[t2]
  {
    hide HistoryOk, TablesOk, GoldsOk, ConnsOk, AdmittedAt;
    assert GrantOk(w, s, t1) && GrantOk(w, s, t2);
  }

  /** With an injective hash, Gold is given the admitted proposal, under an envelope with its intent and payload. */
  lemma GoldGetsTheProposal(w: World, s: State, g: nat)
    requires HashIsInjective(w) && ComparesExactly(w) && Invariant(w, s) && g < |s.golds|
    ensures var e := s.golds[g].redemption.execution;
            && e.token in s.grants && AdmittedFor(s, g) < s.golds[g].at <= |s.history|
            && s.history[AdmittedFor(s, g)].cause.ForAdmission?
            && var a := s.history[AdmittedFor(s, g)].cause.admission;
               && a.client == s.golds[g].redemption.client
               && e.proposal == a.proposal
               && SessionOk(w, a.session) && Admissible(w, a.session, e.proposal)
               && Get(e.envelope, "intentId") == e.proposal["intent_id"]
               && Get(e.envelope, "payload") == e.proposal["payload"]
  {
    hide Invariant, TicketOf, AdmittedCore, ScopeField, Uncalled, SessionOk;
    GoldIsOk(w, s, g);
    var e := s.golds[g].redemption.execution;
    assert AdmittedAt(w, s.history, AdmittedFor(s, g));
    EnvelopeIsExact(w, s.history[AdmittedFor(s, g)].cause.admission.session, e);
  }

  lemma EnvelopeIsExact(w: World, session: Session, e: Execution)
    requires ComparesExactly(w) && EnvelopeOk(w, e) && Admissible(w, session, e.proposal)
    ensures "intent_id" in e.proposal && "payload" in e.proposal
    ensures Get(e.envelope, "intentId") == e.proposal["intent_id"]
            && Get(e.envelope, "payload") == e.proposal["payload"]
  {
  }

  // -------------------------------------------------------------- receipt lineage

  ghost predicate Linked(w: World, h: seq<Entry>, head: string, i: nat)
    requires i < |h|
  {
    && h[i].receipt.parent == HeadAt(h, head, i)
    && h[i].receipt.id == w.receiptId(h[i].receipt.parent, h[i].receipt.core)
  }

  ghost function HeadAt(h: seq<Entry>, head: string, i: nat): string
    requires i <= |h|
  {
    if i == 0 then head else h[i - 1].receipt.id
  }

  /** In the order of their making, all receipts form one chain from the starting head to the current one. */
  ghost predicate OneChain(w: World, s: State, head: string) {
    && s.head == HeadAt(s.history, head, |s.history|)
    && forall i | 0 <= i < |s.history| :: Linked(w, s.history, head, i)
  }

  /** No receipt is made, no token is issued, no ticket is stored. */
  ghost predicate Quiet(s: State, s': State) {
    && s'.history == s.history && s'.head == s.head && s'.grants == s.grants
    && forall t | t in s'.tables.tickets :: t in s.tables.tickets
  }

  lemma AdmitIsQuiet(w: World, s: State, c: nat, client: string, session: Session, msg: Dict, x: Outside)
    ensures Quiet(s, ReceiveAdmit(w, s, c, client, session, msg, x))
  {
    hide AdmitFrame, AdmittedCore;
  }

  lemma ExecuteIsQuiet(w: World, s: State, c: nat, client: string, session: Session, msg: Dict, x: Outside)
    ensures Quiet(s, ReceiveExecute(w, s, c, client, session, msg, x))
  {
    hide ExecuteFrame, ExecutionOf, PhaseAfter;
  }

  lemma FramesAreQuiet(w: World, s: State, c: nat, client: string, session: Session, frame: Frame, x: Outside)
    ensures Quiet(s, ReceiveNext(w, s, c, client, session, frame, x))
  {
    hide ReceiveAdmit, ReceiveExecute;
    if frame.Message? {
      AdmitIsQuiet(w, s, c, client, session, frame.msg, x);
      ExecuteIsQuiet(w, s, c, client, session, frame.msg, x);
    }
  }

  /** Only the making of a receipt touches the chain. */
  lemma StepLeavesChain(w: World, s: State, e: Event)
    requires !(e.MakeReceipt? && e.conn in s.conns && s.conns[e.conn].Reporting?)
    ensures Step(w, s, e).history == s.history && Step(w, s, e).head == s.head
  {
    hide ReceiveNext, RegisterFrame, KillCore, OutcomeCore, TicketOf;
    if e.Receive? && e.conn in s.conns && s.conns[e.conn].Idle? {
      FramesAreQuiet(w, s, e.conn, s.conns[e.conn].client, s.conns[e.conn].session, e.frame, e.x);
    }
  }

  /** The cause recorded with the receipt of a phase. */
  ghost function CauseOf(next: Next): Cause {
    match next
    case Grant(a) => ForAdmission(a)
    case Settle(r) => ForRedemption(r)
    case _ => Plain
  }

  lemma StepAppends(w: World, s: State, e: Event)
    requires e.MakeReceipt? && e.conn in s.conns && s.conns[e.conn].Reporting?
    ensures var s' := Appended(w, s, s.conns[e.conn].core, CauseOf(s.conns[e.conn].next));
            Step(w, s, e).history == s'.history && Step(w, s, e).head == s'.head
  {
  }

  lemma AppendKeepsChain(w: World, s: State, core: Core, cause: Cause, head: string)
    requires OneChain(w, s, head)
    ensures OneChain(w, Appended(w, s, core, cause), head)
  {
    var s' := Appended(w, s, core, cause);
    forall i | 0 <= i < |s'.history|
      ensures Linked(w, s'.history, head, i)
    {
      if i < |s.history| {
        assert Linked(w, s.history, head, i);
      }
    }
  }

  lemma StepKeepsChain(w: World, s: State, e: Event, head: string)
    requires OneChain(w, s, head)
    ensures OneChain(w, Step(w, s, e), head)
  {
    hide Step, Linked;
    if e.MakeReceipt? && e.conn in s.conns && s.conns[e.conn].Reporting? {
      StepAppends(w, s, e);
      AppendKeepsChain(w, s, s.conns[e.conn].core, CauseOf(s.conns[e.conn].next), head);
    } else {
      StepLeavesChain(w, s, e);
    }
  }

  lemma {:induction false} ReceiptsFormOneChain(w: World, registry: map<string, Slot>, head: string, es: seq<Event>)
    ensures OneChain(w, Run(w, Start(registry, head), es), head)
  {
    hide Step;
    if es != [] {
      ReceiptsFormOneChain(w, registry, head, es[..|es| - 1]);
      StepKeepsChain(w, Run(w, Start(registry, head), es[..|es| - 1]), es[|es| - 1], head);
    }
  }

  /** Receipt ids are injective in parent and core, and the starting head is not the id of a receipt. */
  ghost predicate IdsAreInjective(w: World, head: string) {
    && (forall p1: string, c1: Core, p2: string, c2: Core | w.receiptId(p1, c1) == w.receiptId(p2, c2) ::
          p1 == p2 && c1 == c2)
    && (forall p: string, c: Core :: w.receiptId(p, c) != head)
  }

  lemma {:induction false} IdsAreDistinct(w: World, s: State, head: string, i: nat, k: nat)
    requires IdsAreInjective(w, head) && OneChain(w, s, head) && i < k < |s.history|
    ensures s.history[i].receipt.id != s.history[k].receipt.id
  {
    assert Linked(w, s.history, head, i) && Linked(w, s.history, head, k);
    if i > 0 {
      IdsAreDistinct(w, s, head, i - 1, k - 1);
    } else {
      assert Linked(w, s.history, head, k - 1);
    }
  }

  lemma EntryIsOk(w: World, s: State, i: nat)
    requires Invariant(w, s) && i < |s.history|
    ensures EntryOk(w, s, i)
  {
    hide GrantsOk, TablesOk, GoldsOk, ConnsOk, EntryOk;
  }

  /** Receipt `i` reports the outcome of an execution. */
  ghost predicate IsOutcome(r: Receipt) {
    r.core.extra.GoldOutcome? || r.core.extra.ScopeOutcome?
  }

  /** The receipt that an outcome names. */
  function NamedId(r: Receipt): string {
    match r.core.extra
    case GoldOutcome(_, rid) => rid
    case ScopeOutcome(_, rid) => rid
    case _ => ""
  }

  lemma OutcomeHasCause(w: World, s: State, i: nat)
    requires Invariant(w, s) && i < |s.history|
    ensures s.history[i].receipt.core.decision.Executed? ==> IsOutcome(s.history[i].receipt)
    ensures IsOutcome(s.history[i].receipt) <==> s.history[i].cause.ForRedemption?
    ensures s.history[i].receipt.core.decision.Admitted? <==> s.history[i].cause.ForAdmission?
  {
    hide Invariant, RedemptionOk, Admissible, SessionOk, EnvelopeOk, ScopeField, EffectiveMode, VersionField, HashField;
    EntryIsOk(w, s, i);
  }

  /** The two receipts speak of one admission. */
  ghost predicate SameAdmission(admitted: Core, outcome: Core) {
    && admitted.inputHash == outcome.inputHash && admitted.policyHash == outcome.policyHash
    && admitted.capability == outcome.capability && admitted.constitutionId == outcome.constitutionId
    && admitted.clientId == outcome.clientId && admitted.memoryOperation == outcome.memoryOperation
  }

  ghost predicate SameProposal(admitted: Core, outcome: Core) {
    && admitted.version == outcome.version && admitted.definitionHash == outcome.definitionHash
    && admitted.mode == outcome.mode && admitted.memoryScope == outcome.memoryScope
  }

  /** The earlier receipt that outcome `i` names. */
  ghost function AdmittedBefore(s: State, i: nat): nat
    requires i < |s.history| && s.history[i].cause.ForRedemption?
             && s.history[i].cause.redemption.execution.token in s.grants
  {
    s.grants[s.history[i].cause.redemption.execution.token]
  }

  lemma OutcomeNames(w: World, s: State, i: nat) returns (at: nat)
    requires Invariant(w, s) && i < |s.history| && IsOutcome(s.history[i].receipt)
    ensures s.history[i].cause.ForRedemption? && s.history[i].cause.redemption.execution.token in s.grants
    ensures at == AdmittedBefore(s, i) < i && AdmittedAt(w, s.history, at)
    ensures s.history[at].receipt.core.decision.Admitted?
    ensures NamedId(s.history[i].receipt) == s.history[at].receipt.id
    ensures SameAdmission(s.history[at].receipt.core, s.history[i].receipt.core)
    ensures HashIsInjective(w) ==> SameProposal(s.history[at].receipt.core, s.history[i].receipt.core)
                                   && s.history[i].receipt.core.extra.GoldOutcome?
  {
    hide Invariant, SessionOk, EnvelopeOk, EffectiveMode, IsDefinitionHash, Admissible, ScopeField, VersionField,
         HashField;
    OutcomeHasCause(w, s, i);
    EntryIsOk(w, s, i);
    at := AdmittedBefore(s, i);
    var a, r := s.history[at].cause.admission, s.history[i].cause.redemption;
    if HashIsInjective(w) {
      assert r.execution.proposal == a.proposal;
      SameProposalSameCore(w, a, r.ticket.admitReceiptId, r, s.history[i].receipt.core);
    }
  }

  /** The receipts of an admission and of its execution describe the proposal alike, and the scope passes again. */
  lemma SameProposalSameCore(w: World, a: Admission, rid: string, r: Redemption, core: Core)
    requires AdmissionOk(w, a) && r.ticket == TicketOf(w, a, rid) && r.execution.proposal == a.proposal
             && TellsOutcome(w, r, core)
    ensures SameProposal(AdmittedCore(w, a), core) && core.extra.GoldOutcome?
  {
    var capability := TextAt(a.proposal, "capability");
    VersionIffListed(w, a.proposal, capability);
    HashIffPinned(w, a.proposal, capability, Strip(TextAt(a.proposal, "capability_version")));
    ScopeIffGiven(a.proposal, capability);
    hide VersionField, HashField, ScopeField, EffectiveMode, EdgeIsAllowed;
  }

  /**
   Every `executed` receipt, and every other outcome of a redeemed ticket, names an earlier `admitted` receipt with
   the same input hash, policy hash, capability, constitution, client and memory operation; with an injective hash
   also the same version, definition hash, mode and memory scope.
   */
  lemma OutcomesNameAdmissions(w: World, registry: map<string, Slot>, head: string, es: seq<Event>, i: nat)
    returns (at: nat)
    requires i < |Run(w, Start(registry, head), es).history|
    requires IsOutcome(Run(w, Start(registry, head), es).history[i].receipt)
             || Run(w, Start(registry, head), es).history[i].receipt.core.decision.Executed?
    ensures var h := Run(w, Start(registry, head), es).history;
            && at < i && h[at].receipt.core.decision.Admitted? && NamedId(h[i].receipt) == h[at].receipt.id
            && SameAdmission(h[at].receipt.core, h[i].receipt.core)
            && (HashIsInjective(w) ==> SameProposal(h[at].receipt.core, h[i].receipt.core))
  {
    hide Run, Invariant, AdmittedAt, SameAdmission, SameProposal;
    RunsKeep(w, registry, head, es);
    OutcomeHasCause(w, Run(w, Start(registry, head), es), i);
    at := OutcomeNames(w, Run(w, Start(registry, head), es), i);
  }

  /** With an injective hash the memory scope, checked at admission, cannot fail the second check at execution. */
  lemma RecheckCannotFail(w: World, registry: map<string, Slot>, head: string, es: seq<Event>, i: nat)
    requires HashIsInjective(w) && i < |Run(w, Start(registry, head), es).history|
    ensures !Run(w, Start(registry, head), es).history[i].receipt.core.extra.ScopeOutcome?
  {
    hide Run, Invariant, AdmittedAt, SameAdmission, SameProposal;
    RunsKeep(w, registry, head, es);
    var s := Run(w, Start(registry, head), es);
    if s.history[i].receipt.core.extra.ScopeOutcome? {
      var at := OutcomeNames(w, s, i);
    }
  }

  /** No two outcomes name the same admission. */
  lemma OutcomesNameDistinctAdmissions(w: World, registry: map<string, Slot>, head: string, es: seq<Event>, i: nat,
                                       k: nat)
    requires IdsAreInjective(w, head) && i < k < |Run(w, Start(registry, head), es).history|
    requires IsOutcome(Run(w, Start(registry, head), es).history[i].receipt)
    requires IsOutcome(Run(w, Start(registry, head), es).history[k].receipt)
    ensures var h := Run(w, Start(registry, head), es).history; NamedId(h[i].receipt) != NamedId(h[k].receipt)
  {
    hide Run, Invariant, AdmittedAt, SameAdmission, SameProposal, OneChain;
    var s := Run(w, Start(registry, head), es);
    RunsKeep(w, registry, head, es);
    ReceiptsFormOneChain(w, registry, head, es);
    var at1 := OutcomeNames(w, s, i);
    var at2 := OutcomeNames(w, s, k);
    OutcomeTokensDiffer(w, s, i, k);
    TokensAreDistinct(w, s, s.history[i].cause.redemption.execution.token,
                      s.history[k].cause.redemption.execution.token);
    if at1 < at2 {
      IdsAreDistinct(w, s, head, at1, at2);
    } else {
      IdsAreDistinct(w, s, head, at2, at1);
    }
  }

  lemma OutcomeTokensDiffer(w: World, s: State, i: nat, k: nat)
    requires Invariant(w, s) && i < k < |s.history| && s.history[i].cause.ForRedemption?
             && s.history[k].cause.ForRedemption?
    ensures s.history[i].cause.redemption.execution.token != s.history[k].cause.redemption.execution.token
  {
    hide Invariant, RedemptionOk, TellsOutcome;
    EntryIsOk(w, s, i);
    EntryIsOk(w, s, k);
  }

  /** A receipt that speaks of Gold, `executed` or not, belongs to exactly one call of Gold, made for its admission. */
  lemma OutcomesTellOfCalls(w: World, registry: map<string, Slot>, head: string, es: seq<Event>, i: nat)
    returns (g: nat)
    requires i < |Run(w, Start(registry, head), es).history|
    requires Run(w, Start(registry, head), es).history[i].receipt.core.extra.GoldOutcome?
    ensures var s := Run(w, Start(registry, head), es);
            && g < |s.golds| && s.golds[g].redemption.execution.token in s.grants
            && AdmittedFor(s, g) < i && s.history[AdmittedFor(s, g)].receipt.id == NamedId(s.history[i].receipt)
            && s.golds[g].redemption.ticket.inputHash == s.history[i].receipt.core.inputHash
            && forall k | 0 <= k < |s.golds| && k != g :: s.golds[k].redemption.execution.token in s.grants
                                                         && AdmittedFor(s, k) != AdmittedFor(s, g)
  {
    hide Run, Invariant, AdmittedAt, SameAdmission, SameProposal;
    RunsKeep(w, registry, head, es);
    var s := Run(w, Start(registry, head), es);
    var at := OutcomeNames(w, s, i);
    g := CalledFor(w, s, i);
    forall k | 0 <= k < |s.golds| && k != g
      ensures s.golds[k].redemption.execution.token in s.grants && AdmittedFor(s, k) != AdmittedFor(s, g)
    {
      GoldCallsAreDistinct(w, registry, head, es, if k < g then k else g, if k < g then g else k);
    }
  }

  lemma CalledFor(w: World, s: State, i: nat) returns (g: nat)
    requires Invariant(w, s) && i < |s.history| && s.history[i].receipt.core.extra.GoldOutcome?
    ensures g < |s.golds| && s.history[i].cause == ForRedemption(s.golds[g].redemption)
    ensures s.golds[g].redemption.ticket.inputHash == s.history[i].receipt.core.inputHash
  {
    hide Invariant, RedemptionOk, SessionOk, ScopeField, EffectiveMode;
    OutcomeHasCause(w, s, i);
    EntryIsOk(w, s, i);
    g :| 0 <= g < |s.golds| && s.golds[g].redemption == s.history[i].cause.redemption;
  }

  // ---------------------------------------------------------------- ticket tables

  /** In every reachable state, live tickets are listed under their own client and no other. */
  lemma TicketsAreListedOnce(w: World, registry: map<string, Slot>, head: string, es: seq<Event>, t: string,
                             client: string)
    requires t in Run(w, Start(registry, head), es).tables.tickets
    ensures var tb := Run(w, Start(registry, head), es).tables;
            t in ListedUnder(tb.byClient, client) <==> client == tb.tickets[t].client
  {
    hide Run, Invariant;
    RunsKeep(w, registry, head, es);
    TicketsAreListed(w, Run(w, Start(registry, head), es));
  }

  /** A disconnect removes exactly the live tickets of its client. */
  lemma DisconnectIsExact(w: World, registry: map<string, Slot>, head: string, es: seq<Event>, client: string)
    ensures var tb := Run(w, Start(registry, head), es).tables;
            var tb' := WithoutClient(tb, client);
            && (forall t :: t in tb'.tickets <==> t in tb.tickets && tb.tickets[t].client != client)
            && (forall t | t in tb'.tickets :: tb'.tickets[t] == tb.tickets[t])
            && (forall other | other != client :: ListedUnder(tb'.byClient, other) == ListedUnder(tb.byClient, other))
            && ListedUnder(tb'.byClient, client) == {}
  {
    hide Run, Invariant;
    RunsKeep(w, registry, head, es);
    TicketsAreListed(w, Run(w, Start(registry, head), es));
  }

  /** This event takes the token out of the table. */
  ghost predicate Redeems(s: State, e: Event, token: string) {
    && e.Receive? && e.frame.Message? && Get(e.frame.msg, "op") == VStr("execute")
    && e.conn in s.conns && s.conns[e.conn].Idle?
    && ExecutionOf(e.frame.msg).Some? && ExecutionOf(e.frame.msg).value.token == token && token in s.tables.tickets
  }

  /** The token has been issued and is not live. */
  ghost predicate Gone(s: State, token: string) {
    token in s.grants && token !in s.tables.tickets
  }

  lemma StepKeepsGone(w: World, s: State, e: Event, token: string)
    requires Gone(s, token)
    ensures Gone(Step(w, s, e), token)
  {
    hide ReceiveNext, RegisterFrame, KillCore, OutcomeCore, TicketOf;
    if e.Receive? && e.conn in s.conns && s.conns[e.conn].Idle? {
      FramesAreQuiet(w, s, e.conn, s.conns[e.conn].client, s.conns[e.conn].session, e.frame, e.x);
    }
  }

  lemma RedeemedIsGone(w: World, s: State, e: Event, token: string)
    requires Invariant(w, s) && Redeems(s, e, token)
    ensures Gone(Step(w, s, e), token)
  {
    hide Invariant, ExecuteFrame, PhaseAfter, AdmittedAt, TicketOf, ExecutionOf;
    TicketIsOk(w, s, token);
  }

  lemma {:induction false} StaysGone(w: World, s: State, es: seq<Event>, token: string)
    requires Gone(s, token)
    ensures Gone(Run(w, s, es), token)
  {
    hide Step, Gone;
    if es != [] {
      StaysGone(w, s, es[..|es| - 1], token);
      StepKeepsGone(w, Run(w, s, es[..|es| - 1]), es[|es| - 1], token);
    }
  }

  lemma {:induction false} RunsCompose(w: World, s: State, es: seq<Event>, fs: seq<Event>)
    ensures Run(w, s, es + fs) == Run(w, Run(w, s, es), fs)
  {
    hide Step;
    if fs == [] {
      assert es + fs == es;
    } else {
      assert (es + fs)[..|es + fs| - 1] == es + fs[..|fs| - 1];
      RunsCompose(w, s, es, fs[..|fs| - 1]);
    }
  }

  /** No token is redeemed twice, by whomever. */
  lemma TokensAreRedeemedOnce(w: World, registry: map<string, Slot>, head: string, es: seq<Event>, i: nat, k: nat,
                              token: string)
    requires i < k < |es|
    requires Redeems(Run(w, Start(registry, head), es[..i]), es[i], token)
    ensures !Redeems(Run(w, Start(registry, head), es[..k]), es[k], token)
  {
    hide Step, Invariant, Gone;
    var s := Run(w, Start(registry, head), es[..i]);
    RunsKeep(w, registry, head, es[..i]);
    RedeemedIsGone(w, s, es[i], token);
    assert es[..i + 1][..i] == es[..i];
    assert es[..k] == es[..i + 1] + es[i + 1..k];
    RunsCompose(w, Start(registry, head), es[..i + 1], es[i + 1..k]);
    StaysGone(w, Run(w, Start(registry, head), es[..i + 1]), es[i + 1..k], token);
    GoneIsNotLive(Run(w, Start(registry, head), es[..k]), token);
  }

  lemma GoneIsNotLive(s: State, token: string)
    requires Gone(s, token)
    ensures token !in s.tables.tickets
  {
  }
}
