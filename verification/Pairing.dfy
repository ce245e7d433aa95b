/** One-click pairing: the bridge hands out page nonces, the node hands out pairing codes, and a
    configuration is saved after each has been consumed once. Two processes with clocks of
    their own, and the requests between them, interleave freely. */
module Pairing {
  import opened Wrappers
  import opened Text

  type Time = int
  type Nonce = string
  type Code = string

  const NONCE_TTL: Time := 5 * 60 * 1000
  const CODE_TTL: Time := 5 * 60

  /** The entries that have not expired. */
  function Live(entries: map<string, Time>, now: Time): map<string, Time> {
    map k | k in entries && entries[k] > now :: entries[k]
  }

  function IssueNonce(nonces: map<Nonce, Time>, nonce: Nonce, now: Time): map<Nonce, Time> {
    Live(nonces, now)[nonce := now + NONCE_TTL]
  }

  /** A nonce is gone after being presented, whether or not it was still good. */
  function ConsumeNonce(nonces: map<Nonce, Time>, nonce: Nonce, now: Time): (map<Nonce, Time>, bool) {
    if nonce == "" then (nonces, false) else (nonces - {nonce}, nonce in nonces && nonces[nonce] > now)
  }

  function StartPairing(codes: map<Code, Time>, code: Code, now: Time): map<Code, Time> {
    Live(codes, now)[code := now + CODE_TTL]
  }

  function ClaimPairing(codes: map<Code, Time>, allowedOrigin: bool, text: string, now: Time)
    : (map<Code, Time>, Result<()>)
  {
    var code := Trim(text);
    if !allowedOrigin then (codes, Err(Forbidden))
    else if code == "" then (codes, Err(BadRequest))
    else
      var live := Live(codes, now);
      if code in live then (live - {code}, Ok(())) else (live, Err(Unauthorized))
  }

  // --- The two stores as they run ---

  class Bridge {
    var nonces: map<Nonce, Time>

    constructor ()
      ensures nonces == map[]
    {
      nonces := map[];
    }

    /** Delete every expired nonce, one entry at a time, then add the new one. */
    method IssueImportNonce(nonce: Nonce, now: Time)
      modifies this
      ensures nonces == IssueNonce(old(nonces), nonce, now)
    {
      var pending := nonces.Keys;
      while pending != {}
        invariant pending <= nonces.Keys <= old(nonces.Keys)
        invariant forall k | k in old(nonces) :: k in nonces <==> k in pending || old(nonces)[k] > now
        invariant forall k | k in nonces :: nonces[k] == old(nonces)[k]
        decreases |pending|
      {
        var k :| k in pending;
        pending := pending - {k};
        if nonces[k] <= now {
          nonces := nonces - {k};
        }
      }
      assert nonces == Live(old(nonces), now);
      nonces := nonces[nonce := now + NONCE_TTL];
    }

    method ConsumeImportNonce(nonce: Nonce, now: Time) returns (good: bool)
      modifies this
      ensures (nonces, good) == ConsumeNonce(old(nonces), nonce, now)
    {
      if nonce == "" {
        return false;
      }
      var expiry := if nonce in nonces then Some(nonces[nonce]) else None;
      nonces := nonces - {nonce};
      return expiry.Some? && expiry.value > now;
    }
  }

  class Node {
    var pairings: map<Code, Time>

    constructor ()
      ensures pairings == map[]
    {
      pairings := map[];
    }

    method StartOpenClawPairing(code: Code, now: Time)
      modifies this
      ensures pairings == StartPairing(old(pairings), code, now)
    {
      pairings := Live(pairings, now);
      pairings := pairings[code := now + CODE_TTL];
    }

    method ClaimOpenClawPairing(allowedOrigin: bool, text: string, now: Time) returns (r: Result<()>)
      modifies this
      ensures (pairings, r) == ClaimPairing(old(pairings), allowedOrigin, text, now)
    {
      var _ :- Need(allowedOrigin, Forbidden);
      var code := Trim(text);
      var _ :- Need(code != "", BadRequest);
      pairings := Live(pairings, now);
      if code !in pairings {
        return Err(Unauthorized);
      }
      pairings := pairings - {code};
      return Ok(());
    }
  }

  // --- The protocol ---

  /** Where a claim stands: request sent, answered by the server at its time, refused by it,
      saved as the bridge's configuration, or answered but rejected by the bridge. */
  datatype Stage = Sent | Answered(at: Time) | Refused | Saved(at: Time) | Rejected(at: Time)

  /** A claim the bridge started after consuming a nonce. `toNode` is whether the link's claim
      address is the node's; other local servers may answer as they please. */
  datatype Claim = Claim(nonce: Nonce, code: Code, consumedAt: Time, toNode: bool, stage: Stage)

  /** The state of both processes, the claims in order of their start, and the history of what
      was ever issued. */
  datatype World = World(
    codes: map<Code, Time>, nonces: map<Nonce, Time>, claims: seq<Claim>,
    nodeClock: Time, bridgeClock: Time,
    issuedCodes: map<Code, Time>, issuedNonces: map<Nonce, Time>)

  datatype Event =
    | NodeTick(elapsed: nat)
    | BridgeTick(elapsed: nat)
    | PairingStarted(code: Code)
    | PageOpened(nonce: Nonce)
    | ClaimRequested(nonce: Nonce, text: string, toNode: bool, wellFormed: bool)
    | NodeAnswered(claim: nat, allowedOrigin: bool)
    | OtherServerAnswered(claim: nat)
    | StrangerClaimed(text: string, allowedOrigin: bool)
    | ResponseReceived(claim: nat, acceptable: bool)

  function SetStage(w: World, i: nat, stage: Stage): World
    requires i < |w.claims|
  {
    w.(claims := w.claims[i := w.claims[i].(stage := stage)])
  }

  predicate Waiting(w: World, i: nat, toNode: bool) {
    i < |w.claims| && w.claims[i].stage.Sent? && w.claims[i].toNode == toNode
  }

  /** One step of either process. Codes and nonces are random UUIDs: one that was issued before
      is never drawn again, so drawing it is no step at all. */
  function Next(w: World, e: Event): World {
    match e
    case NodeTick(dt) => w.(nodeClock := w.nodeClock + dt)
    case BridgeTick(dt) => w.(bridgeClock := w.bridgeClock + dt)
    case PairingStarted(code) =>
      if code in w.issuedCodes || Trim(code) != code then w
      else w.(codes := StartPairing(w.codes, code, w.nodeClock), issuedCodes := w.issuedCodes[code := w.nodeClock])
    case PageOpened(nonce) =>
      if nonce in w.issuedNonces then w
      else w.(nonces := IssueNonce(w.nonces, nonce, w.bridgeClock),
              issuedNonces := w.issuedNonces[nonce := w.bridgeClock])
    case ClaimRequested(nonce, text, toNode, wellFormed) =>
      var (nonces, good) := ConsumeNonce(w.nonces, nonce, w.bridgeClock);
      w.(nonces := nonces,
         claims := if good && wellFormed && !Blank(text)
                   then w.claims + [Claim(nonce, Trim(text), w.bridgeClock, toNode, Sent)] else w.claims)
    case NodeAnswered(i, allowedOrigin) =>
      if !Waiting(w, i, true) then w
      else
        var (codes, r) := ClaimPairing(w.codes, allowedOrigin, w.claims[i].code, w.nodeClock);
        SetStage(w.(codes := codes), i, if r.Ok? then Answered(w.nodeClock) else Refused)
    case OtherServerAnswered(i) =>
      if !Waiting(w, i, false) then w else SetStage(w, i, Answered(w.nodeClock))
    case StrangerClaimed(text, allowedOrigin) =>
      w.(codes := ClaimPairing(w.codes, allowedOrigin, text, w.nodeClock).0)
    case ResponseReceived(i, acceptable) =>
      if i < |w.claims| && w.claims[i].stage.Answered? then
        var at := w.claims[i].stage.at;
        SetStage(w, i, if acceptable then Saved(at) else Rejected(at))
      else w
  }

  function After(w: World, events: seq<Event>): World
    decreases |events|
  {
    if events == [] then w else After(Next(w, events[0]), events[1..])
  }

  const START: World := World(map[], map[], [], 0, 0, map[], map[])

  // --- Safety ---

  /** The claim used up a code of the node. */
  predicate TookCode(c: Claim) {
    c.toNode && (c.stage.Answered? || c.stage.Saved? || c.stage.Rejected?)
  }

  ghost predicate StoresOk(w: World) {
    && (forall c | c in w.codes :: c in w.issuedCodes && w.codes[c] == w.issuedCodes[c] + CODE_TTL)
    && (forall n | n in w.nonces :: n in w.issuedNonces && w.nonces[n] == w.issuedNonces[n] + NONCE_TTL)
  }

  /** A claim's nonce was consumed in time and is gone; so is the code it took. */
  ghost predicate ClaimOk(w: World, c: Claim) {
    && Trim(c.code) == c.code
    && c.nonce in w.issuedNonces && c.nonce !in w.nonces
    && c.consumedAt < w.issuedNonces[c.nonce] + NONCE_TTL
    && (TookCode(c) ==> && c.code in w.issuedCodes && c.code !in w.codes
                        && c.stage.at < w.issuedCodes[c.code] + CODE_TTL)
  }

  ghost predicate NoSharing(claims: seq<Claim>) {
    && (forall i, j | 0 <= i < j < |claims| :: claims[i].nonce != claims[j].nonce)
    && (forall i, j | 0 <= i < j < |claims| && TookCode(claims[i]) && TookCode(claims[j]) ::
          claims[i].code != claims[j].code)
  }

  ghost predicate Inv(w: World) {
    StoresOk(w) && NoSharing(w.claims) && forall i | 0 <= i < |w.claims| :: ClaimOk(w, w.claims[i])
  }

  lemma StageKeeps(w: World, i: nat, stage: Stage, codes: map<Code, Time>)
    requires Inv(w) && i < |w.claims|
    requires forall c | c in codes :: c in w.codes && codes[c] == w.codes[c]
    requires var c := w.claims[i].(stage := stage);
             TookCode(c) ==> || (TookCode(w.claims[i]) && stage.at == w.claims[i].stage.at)
                             || (c.code in w.codes && c.code !in codes && stage.at < w.codes[c.code])
    ensures Inv(SetStage(w.(codes := codes), i, stage))
  {
    var w' := SetStage(w.(codes := codes), i, stage);
    var c := w'.claims[i];
    assert ClaimOk(w, w.claims[i]);
    forall j | 0 <= j < |w'.claims| ensures ClaimOk(w', w'.claims[j]) {
      assert ClaimOk(w, w.claims[j]);
    }
    forall j | 0 <= j < |w'.claims| && j != i && TookCode(w'.claims[j]) && TookCode(c)
      ensures w'.claims[j].code != c.code
    {
      assert ClaimOk(w, w.claims[j]);
    }
  }

  lemma ClaimRequestedKeeps(w: World, nonce: Nonce, text: string, toNode: bool, wellFormed: bool)
    requires Inv(w)
    ensures Inv(Next(w, ClaimRequested(nonce, text, toNode, wellFormed)))
  {
    var w' := Next(w, ClaimRequested(nonce, text, toNode, wellFormed));
    TrimIdempotent(text);
    forall i | 0 <= i < |w'.claims| ensures ClaimOk(w', w'.claims[i]) {
      if i < |w.claims| { assert ClaimOk(w, w.claims[i]); }
    }
    forall i, j | 0 <= i < j < |w'.claims| ensures w'.claims[i].nonce != w'.claims[j].nonce {
      assert ClaimOk(w, w.claims[i]);
    }
  }

  /** Steps that touch no claim: clocks, new codes and nonces, strangers. */
  lemma StoresKeep(w: World, e: Event)
    requires Inv(w)
    requires e.NodeTick? || e.BridgeTick? || e.PairingStarted? || e.PageOpened? || e.StrangerClaimed?
    ensures Inv(Next(w, e))
  {
    hide Trim;
    var w' := Next(w, e);
    forall i | 0 <= i < |w'.claims| ensures ClaimOk(w', w'.claims[i]) {
      assert ClaimOk(w, w.claims[i]);
    }
  }

  lemma NextKeeps(w: World, e: Event)
    requires Inv(w)
    ensures Inv(Next(w, e))
  {
    match e
    case ClaimRequested(nonce, text, toNode, wellFormed) => ClaimRequestedKeeps(w, nonce, text, toNode, wellFormed);
    case NodeAnswered(i, allowedOrigin) =>
      if Waiting(w, i, true) {
        var (codes, r) := ClaimPairing(w.codes, allowedOrigin, w.claims[i].code, w.nodeClock);
        assert ClaimOk(w, w.claims[i]);
        StageKeeps(w, i, if r.Ok? then Answered(w.nodeClock) else Refused, codes);
      }
    case OtherServerAnswered(i) => if Waiting(w, i, false) { StageKeeps(w, i, Answered(w.nodeClock), w.codes); }
    case ResponseReceived(i, acceptable) =>
      if i < |w.claims| && w.claims[i].stage.Answered? {
        var at := w.claims[i].stage.at;
        StageKeeps(w, i, if acceptable then Saved(at) else Rejected(at), w.codes);
      }
    case _ => StoresKeep(w, e);
  }

  lemma {:induction false} AfterKeeps(w: World, events: seq<Event>)
    requires Inv(w)
    ensures Inv(After(w, events))
    decreases |events|
  {
    if events != [] {
      NextKeeps(w, events[0]);
      AfterKeeps(Next(w, events[0]), events[1..]);
    }
  }

  /** At most once: however the two processes, strangers and lost messages interleave, saved
      configurations map injectively to page nonces and, for links pointing at the node, to
      pairing codes; each was issued and consumed before its five minutes were over. */
  lemma SavedAtMostOnce(events: seq<Event>)
    ensures var w := After(START, events); var claims := w.claims;
            && (forall i | 0 <= i < |claims| && claims[i].stage.Saved? ::
                  && claims[i].nonce in w.issuedNonces && claims[i].nonce !in w.nonces
                  && claims[i].consumedAt < w.issuedNonces[claims[i].nonce] + NONCE_TTL
                  && (claims[i].toNode ==>
                        && claims[i].code in w.issuedCodes && claims[i].code !in w.codes
                        && claims[i].stage.at < w.issuedCodes[claims[i].code] + CODE_TTL))
            && (forall i, j | 0 <= i < j < |claims| && claims[i].stage.Saved? && claims[j].stage.Saved? ::
                  && claims[i].nonce != claims[j].nonce
                  && (claims[i].toNode && claims[j].toNode ==> claims[i].code != claims[j].code))
  {
    AfterKeeps(START, events);
    var w := After(START, events);
    forall i | 0 <= i < |w.claims| && w.claims[i].stage.Saved? ensures ClaimOk(w, w.claims[i]) {}
  }

  /** Two saved configurations share a pairing code. */
  predicate ShareCode(w: World, first: bool, second: bool) {
    && |w.claims| == 2 && w.claims[0].stage.Saved? && w.claims[1].stage.Saved?
    && w.claims[0].code == w.claims[1].code && w.claims[0].toNode == first && w.claims[1].toNode == second
  }

  /** Codes are only the node's to protect: two saved configurations may share one exactly if not
      both claims were sent to the node. */
  lemma CodesSharedExactly(first: bool, second: bool)
    ensures (exists events :: ShareCode(After(START, events), first, second)) <==> !(first && second)
  {
    if first && second {
      forall events ensures !ShareCode(After(START, events), first, second) {
        SavedAtMostOnce(events);
      }
    } else {
      CodesShared(first, second);
    }
  }

  /** How the server a claim was sent to answers it. */
  function Answer(i: nat, toNode: bool): Event {
    if toNode then NodeAnswered(i, true) else OtherServerAnswered(i)
  }

  lemma CodesShared(first: bool, second: bool)
    requires !(first && second)
    ensures exists events :: ShareCode(After(START, events), first, second)
  {
    hide Next, After;
    var start := Next(START, PairingStarted("c"));
    var pages := TwoPagesOpened();
    var asked := TwoClaimsSent(pages, "a", "b", first, second);
    BothSaved(asked, asked.claims[0], asked.claims[1]);
    var events := [PageOpened("a"), PageOpened("b"),
                   ClaimRequested("a", "c", first, true), ClaimRequested("b", "c", second, true),
                   Answer(0, first), Answer(1, second), ResponseReceived(0, true), ResponseReceived(1, true)];
    EightSteps(start, events);
    var all := [PairingStarted("c")] + events;
    assert all[0..] == all && all[1..] == events;
    OneMore(START, all, 0);
    assert ShareCode(After(START, all), first, second);
  }

  lemma EightSteps(w: World, e: seq<Event>)
    requires |e| == 8
    ensures var w4 := Next(Next(Next(Next(w, e[0]), e[1]), e[2]), e[3]);
            After(w, e) == Next(Next(Next(Next(w4, e[4]), e[5]), e[6]), e[7])
  {
    hide Next;
    var w2 := Next(Next(w, e[0]), e[1]);
    var w4 := Next(Next(w2, e[2]), e[3]);
    var w6 := Next(Next(w4, e[4]), e[5]);
    OneMore(w, e, 0);
    OneMore(Next(w, e[0]), e, 1);
    OneMore(w2, e, 2);
    OneMore(Next(w2, e[2]), e, 3);
    OneMore(w4, e, 4);
    OneMore(Next(w4, e[4]), e, 5);
    OneMore(w6, e, 6);
    OneMore(Next(w6, e[6]), e, 7);
    assert e[0..] == e && e[8..] == [];
  }

  lemma TwoPagesOpened() returns (w: World)
    ensures w == Next(Next(Next(START, PairingStarted("c")), PageOpened("a")), PageOpened("b"))
    ensures w.claims == [] && w.bridgeClock == 0 && w.nonces == map["a" := NONCE_TTL, "b" := NONCE_TTL]
    ensures w.nodeClock == 0 && w.codes == map["c" := CODE_TTL]
  {
    TrimKeeps("c");
    w := Next(Next(Next(START, PairingStarted("c")), PageOpened("a")), PageOpened("b"));
  }

  lemma TwoClaimsSent(w: World, a: Nonce, b: Nonce, first: bool, second: bool) returns (w': World)
    requires a != b && a != "" && b != "" && w.claims == [] && w.bridgeClock == 0
    requires a in w.nonces && b in w.nonces && w.nonces[a] > 0 && w.nonces[b] > 0
    ensures w' == Next(Next(w, ClaimRequested(a, "c", first, true)), ClaimRequested(b, "c", second, true))
    ensures w'.claims == [Claim(a, "c", 0, first, Sent), Claim(b, "c", 0, second, Sent)]
    ensures w'.codes == w.codes && w'.nodeClock == w.nodeClock
  {
    TrimKeeps("c");
    w' := Next(Next(w, ClaimRequested(a, "c", first, true)), ClaimRequested(b, "c", second, true));
  }

  lemma BothSaved(w: World, c: Claim, d: Claim)
    requires w.claims == [c, d] && c.stage.Sent? && d.stage.Sent? && !(c.toNode && d.toNode)
    requires c.code == d.code == "c" && "c" in w.codes && w.codes["c"] > w.nodeClock
    ensures var answered := Next(Next(w, Answer(0, c.toNode)), Answer(1, d.toNode));
            var saved := Next(Next(answered, ResponseReceived(0, true)), ResponseReceived(1, true));
            saved.claims == [c.(stage := Saved(w.nodeClock)), d.(stage := Saved(w.nodeClock))]
  {
    TrimKeeps("c");
    var one := Next(w, Answer(0, c.toNode));
    assert one.claims == [c.(stage := Answered(w.nodeClock)), d];
    assert d.toNode ==> "c" in one.codes;
  }

  lemma OneMore(w: World, events: seq<Event>, i: nat)
    requires i < |events|
    ensures After(w, events[i..]) == After(Next(w, events[i]), events[i + 1..])
  {
    hide Next;
    assert events[i..][1..] == events[i + 1..];
  }

  /** An issued code that was consumed or has expired. */
  predicate DeadCode(w: World, code: Code) {
    code in w.issuedCodes && (code in w.codes ==> w.codes[code] <= w.nodeClock)
  }

  predicate DeadNonce(w: World, nonce: Nonce) {
    nonce in w.issuedNonces && (nonce in w.nonces ==> w.nonces[nonce] <= w.bridgeClock)
  }

  lemma DeadNext(w: World, event: Event, s: string)
    ensures DeadCode(w, s) ==> DeadCode(Next(w, event), s)
    ensures DeadNonce(w, s) ==> DeadNonce(Next(w, event), s)
  {
  }

  /** What is consumed or expired stays so. */
  lemma {:induction false} DeadForever(w: World, events: seq<Event>, s: string)
    ensures DeadCode(w, s) ==> DeadCode(After(w, events), s)
    ensures DeadNonce(w, s) ==> DeadNonce(After(w, events), s)
    decreases |events|
  {
    if events != [] {
      hide Next, DeadCode, DeadNonce;
      DeadNext(w, events[0], s);
      DeadForever(Next(w, events[0]), events[1..], s);
    }
  }

  /** A code that outlived its five minutes, or that any claim took out of the node's table,
      is refused at every later point. */
  lemma DeadCodeRefused(w: World, first: Event, events: seq<Event>, code: Code, text: string, allowedOrigin: bool)
    requires Trim(text) == code && code in w.issuedCodes
    requires DeadCode(w, code) || (code in w.codes && code !in Next(w, first).codes)
    ensures var later := After(Next(w, first), events);
            ClaimPairing(later.codes, allowedOrigin, text, later.nodeClock).1.Err?
  {
    DeadForever(w, [first], code);
    assert [first][1..] == [];
    DeadForever(Next(w, first), events, code);
  }

  /** A nonce that was presented once, or outlived its five minutes, starts no claim again. */
  lemma DeadNonceRefused(w: World, first: Event, events: seq<Event>, nonce: Nonce, text: string, toNode: bool)
    requires nonce in w.issuedNonces
    requires DeadNonce(w, nonce) || (first.ClaimRequested? && first.nonce == nonce && nonce != "")
    ensures var later := After(Next(w, first), events);
            Next(later, ClaimRequested(nonce, text, toNode, true)).claims == later.claims
  {
    DeadForever(w, [first], nonce);
    assert [first][1..] == [];
    assert DeadNonce(Next(w, first), nonce);
    DeadForever(Next(w, first), events, nonce);
  }

  // --- Liveness ---

  /** The event is a claim that takes the code out of the node's table. */
  predicate Takes(w: World, e: Event, code: Code) {
    match e
    case NodeAnswered(i, allowedOrigin) => allowedOrigin && Waiting(w, i, true) && w.claims[i].code == code
    case StrangerClaimed(text, allowedOrigin) => allowedOrigin && Trim(text) == code
    case _ => false
  }

  predicate NeverTaken(w: World, events: seq<Event>, code: Code)
    decreases |events|
  {
    events == [] || (!Takes(w, events[0], code) && NeverTaken(Next(w, events[0]), events[1..], code))
  }

  predicate NeverPresented(events: seq<Event>, nonce: Nonce) {
    forall e | e in events :: !(e.ClaimRequested? && e.nonce == nonce)
  }

  lemma {:induction false} ClocksAdvance(w: World, events: seq<Event>)
    ensures w.nodeClock <= After(w, events).nodeClock && w.bridgeClock <= After(w, events).bridgeClock
    decreases |events|
  {
    if events != [] {
      OneTick(w, events[0]);
      hide Next;
      ClocksAdvance(Next(w, events[0]), events[1..]);
    }
  }

  lemma OneTick(w: World, e: Event)
    ensures w.nodeClock <= Next(w, e).nodeClock && w.bridgeClock <= Next(w, e).bridgeClock
  {
    hide Trim;
  }

  /** A code stays good through starts of other pairings, claims of other codes and refused
      claims, for as long as its time lasts. */
  lemma CodeStays(w: World, e: Event, code: Code)
    requires Inv(w) && code in w.codes && Trim(code) == code && !Takes(w, e, code)
    requires w.nodeClock < w.codes[code]
    ensures code in Next(w, e).codes && Next(w, e).codes[code] == w.codes[code]
  {
    if e.NodeAnswered? && Waiting(w, e.claim, true) {
      assert ClaimOk(w, w.claims[e.claim]);
    }
    hide Trim;
  }

  /** From its start a pairing code is accepted, from an allowed origin and with any white space
      around it, exactly until its five minutes are over or some claim has taken it. */
  lemma {:induction false} CodeAcceptedExactly(w: World, events: seq<Event>, code: Code, text: string)
    requires Inv(w) && code in w.codes && Trim(text) == code != "" && NeverTaken(w, events, code)
    ensures var later := After(w, events);
            ClaimPairing(later.codes, true, text, later.nodeClock).1.Ok? <==> later.nodeClock < w.codes[code]
    decreases |events|
  {
    TrimIdempotent(text);
    if w.nodeClock < w.codes[code] {
      if events != [] {
        CodeStays(w, events[0], code);
        NextKeeps(w, events[0]);
        hide Next, Inv, Trim;
        CodeAcceptedExactly(Next(w, events[0]), events[1..], code, text);
      }
    } else {
      ClocksAdvance(w, events);
      DeadForever(w, events, code);
      hide Next, Inv, Trim, After;
    }
  }

  lemma NonceStays(w: World, e: Event, nonce: Nonce)
    requires Inv(w) && nonce in w.nonces && !(e.ClaimRequested? && e.nonce == nonce)
    requires w.bridgeClock < w.nonces[nonce]
    ensures nonce in Next(w, e).nonces && Next(w, e).nonces[nonce] == w.nonces[nonce]
  {
    hide Trim;
  }

  /** A page's nonce is good exactly until its five minutes are over or it has been presented. */
  lemma {:induction false} NonceAcceptedExactly(w: World, events: seq<Event>, nonce: Nonce)
    requires Inv(w) && nonce in w.nonces && nonce != "" && NeverPresented(events, nonce)
    ensures var later := After(w, events);
            ConsumeNonce(later.nonces, nonce, later.bridgeClock).1 <==> later.bridgeClock < w.nonces[nonce]
    decreases |events|
  {
    if w.bridgeClock < w.nonces[nonce] {
      if events != [] {
        NonceStays(w, events[0], nonce);
        NextKeeps(w, events[0]);
        hide Next, Inv;
        NonceAcceptedExactly(Next(w, events[0]), events[1..], nonce);
      }
    } else {
      ClocksAdvance(w, events);
      DeadForever(w, events, nonce);
      hide Next, Inv, After;
    }
  }

  /** A code and a nonce start out good for five minutes, by a clock in seconds and one in
      milliseconds. */
  lemma FiveMinutes(w: World, code: Code, nonce: Nonce)
    requires code !in w.issuedCodes && Trim(code) == code && nonce !in w.issuedNonces
    ensures var started := Next(w, PairingStarted(code));
            code in started.codes && started.codes[code] == w.nodeClock + 300
    ensures var page := Next(w, PageOpened(nonce));
            nonce in page.nonces && page.nonces[nonce] == w.bridgeClock + 300_000
  {
  }

  /** A claim with a good nonce and a good code, answered and acceptable, is saved, and uses up
      both. */
  lemma GoodClaimIsSaved(w: World, nonce: Nonce, text: string)
    requires nonce in w.nonces && w.bridgeClock < w.nonces[nonce] && nonce != ""
    requires Trim(text) in w.codes && w.nodeClock < w.codes[Trim(text)] && Trim(text) != ""
    ensures var n := |w.claims|;
            var asked := Next(w, ClaimRequested(nonce, text, true, true));
            var saved := Next(Next(asked, NodeAnswered(n, true)), ResponseReceived(n, true));
            && saved.claims == w.claims + [Claim(nonce, Trim(text), w.bridgeClock, true, Saved(w.nodeClock))]
            && Trim(text) !in saved.codes && nonce !in saved.nonces
  {
    TrimIdempotent(text);
    hide Trim;
    var n := |w.claims|;
    var asked := Next(w, ClaimRequested(nonce, text, true, true));
    assert asked.claims == w.claims + [Claim(nonce, Trim(text), w.bridgeClock, true, Sent)];
    var answered := Next(asked, NodeAnswered(n, true));
    assert answered.claims == w.claims + [Claim(nonce, Trim(text), w.bridgeClock, true, Answered(w.nodeClock))];
  }
}
