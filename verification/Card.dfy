/** The card thread's operations on the smart card: choosing a card, verifying the PIN, deciphering, reconnecting.

    Every operation that talks to the card service is one tick of a clock; the world decides at each tick what the
    readers show and which transmissions fail. */
module Card {
  import opened Wrappers

  type Bytes = seq<int>

  datatype SmartcardError =
    CardNotFound | NoDecryptionKey | PinFailed | DhFailed | CardError | ZeroSharedSecret | QueueFull

  const KEY_LEN := 32
  const MAX_TRIES := 3
  const AUTO := "auto"

  /** What probing one reader gives: a failure at some stage, or a card, whose key slot may fail to read. */
  datatype Slot = BackendError | OpenError | TransactionError | IdentError | Ready(chip: nat, keyReadable: bool)

  /** `ident`, `publicKey` and `secret` belong to a physical card, here called a chip; `publicKey` is the content of
      its decryption slot, if that is an elliptic-curve key. `dh` is X25519 as the card computes it. */
  datatype World = World(
    ident: nat -> string,
    publicKey: nat -> Option<Bytes>,
    secret: nat -> nat,
    dh: (nat, Bytes) -> Bytes,
    readers: nat -> Option<seq<Slot>>,
    transactionOk: nat -> bool,
    verifyOk: nat -> bool,
    decipherOk: nat -> bool,
    keyReadOk: nat -> bool)

  type Tries = n: nat | n <= MAX_TRIES

  /** A card's PIN and how many wrong PINs it still tolerates. */
  datatype Chip = Chip(pin: string, tries: Tries)

  /** All cards, the one held open, and counts of what has been attempted. */
  datatype CardState = CardState(chips: map<nat, Chip>, held: nat, clock: nat, verifies: nat, reconnects: nat)

  predicate KeySlotOk(w: World, id: nat) {
    w.publicKey(id).Some? && |w.publicKey(id).value| >= KEY_LEN
  }

  predicate AllZero(k: Bytes) {
    forall i :: 0 <= i < |k| ==> k[i] == 0
  }

  // ---------------------------------------------------------------- what the operations do

  /** VERIFY: a right PIN restores the counter, a wrong one costs a try, a blocked card refuses. */
  function Verify(c: Chip, pin: string): (Chip, bool) {
    if c.tries == 0 then (c, false)
    else if c.pin == pin then (c.(tries := MAX_TRIES), true)
    else (c.(tries := c.tries - 1), false)
  }

  /** VERIFY on the held card, if the command gets there. */
  function VerifyHeld(w: World, st: CardState, pin: string, tick: nat): (CardState, bool) {
    var st1 := st.(verifies := st.verifies + 1);
    if !w.verifyOk(tick) || st.held !in st.chips then (st1, false) else
    var (c, ok) := Verify(st.chips[st.held], pin);
    (st1.(chips := st.chips[st.held := c]), ok)
  }

  function TryDecipher(w: World, st: CardState, pin: string, peerPk: Bytes)
    : (CardState, Result<Bytes, SmartcardError>)
  {
    var tick, st1 := st.clock, st.(clock := st.clock + 1);
    if !w.transactionOk(tick) then (st1, Err(CardError)) else
    var (st2, ok) := VerifyHeld(w, st1, pin, tick);
    if !ok then (st2, Err(PinFailed))
    else if !w.decipherOk(tick) then (st2, Err(DhFailed)) else
    var ss := w.dh(w.secret(st.held), peerPk);
    if |ss| < KEY_LEN then (st2, Err(DhFailed))
    else if AllZero(ss[..KEY_LEN]) then (st2, Err(ZeroSharedSecret))
    else (st2, Ok(ss[..KEY_LEN]))
  }

  /** The first reader that shows a card with this ident. */
  function FindIdent(w: World, slots: seq<Slot>, ident: string): Option<nat> {
    if slots == [] then None
    else if slots[0].Ready? && w.ident(slots[0].chip) == ident then Some(slots[0].chip)
    else FindIdent(w, slots[1..], ident)
  }

  function Reconnect(w: World, st: CardState, ident: string): (CardState, Result<(), SmartcardError>) {
    var st1 := st.(clock := st.clock + 1, reconnects := st.reconnects + 1);
    if w.readers(st.clock).None? then (st1, Err(CardError)) else
    var found := FindIdent(w, w.readers(st.clock).value, ident);
    if found.None? then (st1, Err(CardNotFound)) else (st1.(held := found.value), Ok(()))
  }

  function DecipherWithRetry(w: World, st: CardState, ident: string, pin: string, peerPk: Bytes)
    : (CardState, Result<Bytes, SmartcardError>)
  {
    var (st1, r) := TryDecipher(w, st, pin, peerPk);
    if r.Ok? then (st1, r) else
    var (st2, again) := Reconnect(w, st1, ident);
    if again.Err? then (st2, Err(again.error)) else TryDecipher(w, st2, pin, peerPk)
  }

  /** Reading the public key of the held card; `None` when any stage of it fails. */
  function ReadPublicKey(w: World, st: CardState): (CardState, Option<Bytes>) {
    var tick := st.clock;
    (st.(clock := tick + 1),
     if w.transactionOk(tick) && w.keyReadOk(tick) && KeySlotOk(w, st.held)
     then Some(w.publicKey(st.held).value[..KEY_LEN]) else None)
  }

  /** The search of `open_and_verify`: `Err` is a card that was asked for by ident but has no usable key. */
  function FindEligible(w: World, slots: seq<Slot>, requested: string): Option<Result<nat, SmartcardError>> {
    if slots == [] then None else
    var rest := FindEligible(w, slots[1..], requested);
    if !slots[0].Ready? then rest else
    var Ready(chip, keyReadable) := slots[0];
    if requested != AUTO && requested != w.ident(chip) then rest
    else if keyReadable && KeySlotOk(w, chip) then Some(Ok(chip))
    else if requested == AUTO then rest
    else Some(Err(NoDecryptionKey))
  }

  /** `Panicked` is the failed expectation that a card just found still accepts a transaction. */
  datatype OpenResult = Opened(ident: string) | Failed(error: SmartcardError) | Panicked

  function OpenAndVerify(w: World, st: CardState, requested: string, pin: string): (CardState, OpenResult) {
    var tick, st1 := st.clock, st.(clock := st.clock + 1);
    if w.readers(tick).None? then (st1, Failed(CardError)) else
    var found := FindEligible(w, w.readers(tick).value, requested);
    if found.None? then (st1, Failed(CardNotFound))
    else if found.value.Err? then (st1, Failed(found.value.error)) else
    var st2 := st1.(held := found.value.value);
    if !w.transactionOk(tick) then (st2, Panicked) else
    var (st3, ok) := VerifyHeld(w, st2, pin, tick);
    (st3, if ok then Opened(w.ident(st2.held)) else Failed(PinFailed))
  }

  // ---------------------------------------------------------------- the operations themselves

  class CardReader {
    const world: World
    var st: CardState

    constructor (world: World, chips: map<nat, Chip>)
      ensures this.world == world && st == CardState(chips, 0, 0, 0, 0)
    {
      this.world := world;
      st := CardState(chips, 0, 0, 0, 0);
    }

    method VerifyUserPin(pin: string, tick: nat) returns (ok: bool)
      modifies this`st
      ensures (st, ok) == VerifyHeld(world, old(st), pin, tick)
    {
      ok := false;
      st := st.(verifies := st.verifies + 1);
      if world.verifyOk(tick) && st.held in st.chips {
        var chip := st.chips[st.held];
        if chip.tries > 0 {
          ok := chip.pin == pin;
          st := st.(chips := st.chips[st.held := chip.(tries := if ok then MAX_TRIES else chip.tries - 1)]);
        } else {
          assert st.chips[st.held := chip] == st.chips;
        }
      }
    }

    method TryDecipherNow(pin: string, peerPk: Bytes) returns (r: Result<Bytes, SmartcardError>)
      modifies this`st
      ensures (st, r) == TryDecipher(world, old(st), pin, peerPk)
    {
      var tick := st.clock;
      st := st.(clock := tick + 1);
      if !world.transactionOk(tick) {
        return Err(CardError);
      }
      var ok := VerifyUserPin(pin, tick);
      if !ok {
        return Err(PinFailed);
      }
      if !world.decipherOk(tick) {
        return Err(DhFailed);
      }
      var ss := world.dh(world.secret(st.held), peerPk);
      if |ss| < KEY_LEN {
        return Err(DhFailed);
      }
      var key := ss[..KEY_LEN];
      var isZero := true;
      for i := 0 to KEY_LEN
        invariant isZero <==> AllZero(key[..i])
      {
        assert key[..i + 1] == key[..i] + [key[i]];
        isZero := isZero && key[i] == 0;
      }
      assert key[..KEY_LEN] == key;
      if isZero {
        return Err(ZeroSharedSecret);
      }
      return Ok(key);
    }

    method ReconnectNow(ident: string) returns (r: Result<(), SmartcardError>)
      modifies this`st
      ensures (st, r) == Reconnect(world, old(st), ident)
    {
      var readers := world.readers(st.clock);
      st := st.(clock := st.clock + 1, reconnects := st.reconnects + 1);
      if readers.None? {
        return Err(CardError);
      }
      var slots := readers.value;
      for i := 0 to |slots|
        invariant st == old(st).(clock := old(st).clock + 1, reconnects := old(st).reconnects + 1)
        invariant FindIdent(world, slots, ident) == FindIdent(world, slots[i..], ident)
      {
        if slots[i].Ready? && world.ident(slots[i].chip) == ident {
          st := st.(held := slots[i].chip);
          return Ok(());
        }
      }
      return Err(CardNotFound);
    }

    method DecipherNow(ident: string, pin: string, peerPk: Bytes) returns (r: Result<Bytes, SmartcardError>)
      modifies this`st
      ensures (st, r) == DecipherWithRetry(world, old(st), ident, pin, peerPk)
    {
      r := TryDecipherNow(pin, peerPk);
      if r.Err? {
        var again := ReconnectNow(ident);
        if again.Err? {
          return Err(again.error);
        }
        r := TryDecipherNow(pin, peerPk);
      }
    }

    method ReadPublicKeyNow() returns (k: Option<Bytes>)
      modifies this`st
      ensures (st, k) == ReadPublicKey(world, old(st))
    {
      var tick := st.clock;
      st := st.(clock := tick + 1);
      k := None;
      if world.transactionOk(tick) && world.keyReadOk(tick) && world.publicKey(st.held).Some? {
        var data := world.publicKey(st.held).value;
        if |data| >= KEY_LEN {
          k := Some(data[..KEY_LEN]);
        }
      }
    }

    method OpenNow(requested: string, pin: string) returns (r: OpenResult)
      modifies this`st
      ensures (st, r) == OpenAndVerify(world, old(st), requested, pin)
    {
      var tick := st.clock;
      st := st.(clock := tick + 1);
      var readers := world.readers(tick);
      if readers.None? {
        return Failed(CardError);
      }
      var found := FindEligible(world, readers.value, requested);
      if found.None? {
        return Failed(CardNotFound);
      }
      if found.value.Err? {
        return Failed(found.value.error);
      }
      st := st.(held := found.value.value);
      if !world.transactionOk(tick) {
        return Panicked;
      }
      var ident := world.ident(st.held);
      var ok := VerifyUserPin(pin, tick);
      return if ok then Opened(ident) else Failed(PinFailed);
    }
  }

  // ---------------------------------------------------------------- choosing a card

  /** A reader that settles the search: any usable card for `auto`; for an explicit ident the card that has it,
      whether its key is usable or not. */
  predicate Decides(w: World, s: Slot, requested: string) {
    s.Ready? && if requested == "auto" then s.keyReadable && KeySlotOk(w, s.chip) else w.ident(s.chip) == requested
  }

  predicate First(w: World, slots: seq<Slot>, requested: string, i: int) {
    && 0 <= i < |slots| && Decides(w, slots[i], requested)
    && forall j :: 0 <= j < i ==> !Decides(w, slots[j], requested)
  }

  /** The search takes the first reader that decides. */
  lemma {:induction false} FirstDecides(w: World, slots: seq<Slot>, requested: string)
    ensures FindEligible(w, slots, requested).None?
       <==> forall i :: 0 <= i < |slots| ==> !Decides(w, slots[i], requested)
    ensures forall i | First(w, slots, requested, i) ::
              FindEligible(w, slots, requested)
              == Some(if slots[i].keyReadable && KeySlotOk(w, slots[i].chip) then Ok(slots[i].chip)
                      else Err(NoDecryptionKey))
  {
    if slots != [] {
      FirstDecides(w, slots[1..], requested);
      assert forall i :: 0 < i < |slots| ==> slots[i] == slots[1..][i - 1];
      forall i | First(w, slots, requested, i) && i > 0 ensures First(w, slots[1..], requested, i - 1) {
        assert forall j :: 0 <= j < i - 1 ==> slots[1..][j] == slots[j + 1];
      }
    }
  }

  lemma {:induction false} FoundHasIdent(w: World, slots: seq<Slot>, ident: string)
    ensures FindIdent(w, slots, ident).Some? ==> w.ident(FindIdent(w, slots, ident).value) == ident
  {
    if slots != [] {
      FoundHasIdent(w, slots[1..], ident);
    }
  }

  lemma {:induction false} FoundIsEligible(w: World, slots: seq<Slot>, requested: string)
    ensures var r := FindEligible(w, slots, requested);
            r.Some? && r.value.Ok? ==>
              KeySlotOk(w, r.value.value) && (requested == AUTO || w.ident(r.value.value) == requested)
    ensures var r := FindEligible(w, slots, requested);
            r.Some? && r.value.Err? ==> requested != AUTO && r.value.error == NoDecryptionKey
  {
    if slots != [] {
      FoundIsEligible(w, slots[1..], requested);
    }
  }

  /** Opening holds an eligible card whose PIN was right, and reports its ident. A wrong PIN costs that one card
      exactly one try, nothing is opened, and no other card is touched. */
  lemma OpenSpends(w: World, st: CardState, requested: string, pin: string)
    ensures var (st1, r) := OpenAndVerify(w, st, requested, pin);
            && st1.verifies <= st.verifies + 1 && st1.reconnects == st.reconnects
            && (forall id :: id in st.chips && id != st1.held ==> id in st1.chips && st1.chips[id] == st.chips[id])
            && (r.Opened? ==>
                  && r.ident == w.ident(st1.held) && KeySlotOk(w, st1.held)
                  && (requested == AUTO || r.ident == requested)
                  && st1.held in st1.chips && st1.chips[st1.held] == Chip(pin, 3))
            && (st1.held in st.chips && st.chips[st1.held].pin != pin ==>
                  && !r.Opened? && st1.held in st1.chips
                  && st.chips[st1.held].tries - st1.chips[st1.held].tries <= st1.verifies - st.verifies)
            && (r == Failed(PinFailed) && st1.held in st.chips && w.verifyOk(st.clock)
                && st.chips[st1.held].tries > 0 ==>
                  && st1.verifies == st.verifies + 1
                  && st1.chips[st1.held] == st.chips[st1.held].(tries := st.chips[st1.held].tries - 1))
  {
    if w.readers(st.clock).Some? {
      FoundIsEligible(w, w.readers(st.clock).value, requested);
    }
  }

  /** The PIN is accepted on the card held: the command arrives, the card is there and not blocked, the PIN is
      right. */
  predicate PinAccepted(w: World, st: CardState, tick: nat, pin: string) {
    && w.transactionOk(tick) && w.verifyOk(tick)
    && st.held in st.chips && st.chips[st.held].tries > 0 && st.chips[st.held].pin == pin
  }

  /** Exactly how opening ends: the first reader that decides is taken; it may have no usable key, or not accept the
      PIN once it has been found. */
  lemma OpenOutcome(w: World, st: CardState, requested: string, pin: string, slots: seq<Slot>)
    requires w.readers(st.clock) == Some(slots)
    ensures var (st1, r) := OpenAndVerify(w, st, requested, pin);
            && (r == Failed(CardNotFound) <==> forall i :: 0 <= i < |slots| ==> !Decides(w, slots[i], requested))
            && forall i | First(w, slots, requested, i) ::
                 var chip := slots[i].chip;
                 if !slots[i].keyReadable || !KeySlotOk(w, chip) then r == Failed(NoDecryptionKey)
                 else
                   && st1.held == chip
                   && r == if !w.transactionOk(st.clock) then Panicked
                           else if PinAccepted(w, st.(held := chip), st.clock, pin) then Opened(w.ident(chip))
                           else Failed(PinFailed)
  {
    FirstDecides(w, slots, requested);
    FoundIsEligible(w, slots, requested);
  }

  lemma NoReadersNoCard(w: World, st: CardState, requested: string, pin: string)
    requires w.readers(st.clock).None?
    ensures var (st1, r) := OpenAndVerify(w, st, requested, pin); r == Failed(CardError) && st1.verifies == st.verifies
  {
  }

  // ---------------------------------------------------------------- when a request succeeds

  /** The held card does its part: it accepts the PIN, deciphers, and gives 32 bytes that are not all zero. */
  ghost predicate CardAnswers(w: World, st: CardState, pin: string, peerPk: Bytes) {
    var ss := w.dh(w.secret(st.held), peerPk);
    && PinAccepted(w, st, st.clock, pin) && w.decipherOk(st.clock)
    && |ss| >= 32 && exists i :: 0 <= i < 32 && ss[i] != 0
  }

  /** Exactly when one attempt succeeds, with what, and which failure is reported for what. */
  lemma AttemptOutcome(w: World, st: CardState, pin: string, peerPk: Bytes)
    ensures var (tick, r, ss) := (st.clock, TryDecipher(w, st, pin, peerPk).1, w.dh(w.secret(st.held), peerPk));
            && (r.Ok? <==> CardAnswers(w, st, pin, peerPk))
            && (r.Ok? ==> r.value == ss[..32])
            && (r == Err(CardError) <==> !w.transactionOk(tick))
            && (r == Err(PinFailed) <==> w.transactionOk(tick) && !PinAccepted(w, st, tick, pin))
            && (r == Err(ZeroSharedSecret) <==>
                  && PinAccepted(w, st, tick, pin) && w.decipherOk(tick)
                  && |ss| >= 32 && forall i :: 0 <= i < 32 ==> ss[i] == 0)
            && (r == Err(DhFailed) <==> PinAccepted(w, st, tick, pin) && (!w.decipherOk(tick) || |ss| < 32))
  {
  }

  /** Reader `i` is the first that shows a card with this ident. */
  predicate FirstWithIdent(w: World, slots: seq<Slot>, ident: string, i: int) {
    && 0 <= i < |slots| && slots[i].Ready? && w.ident(slots[i].chip) == ident
    && forall j :: 0 <= j < i && slots[j].Ready? ==> w.ident(slots[j].chip) != ident
  }

  lemma {:induction false} FindsFirst(w: World, slots: seq<Slot>, ident: string)
    ensures FindIdent(w, slots, ident).Some? <==> exists i :: FirstWithIdent(w, slots, ident, i)
    ensures forall i | FirstWithIdent(w, slots, ident, i) :: FindIdent(w, slots, ident) == Some(slots[i].chip)
  {
    if slots != [] {
      FindsFirst(w, slots[1..], ident);
      if slots[0].Ready? && w.ident(slots[0].chip) == ident {
        assert FirstWithIdent(w, slots, ident, 0);
      } else {
        forall i | FirstWithIdent(w, slots, ident, i) ensures FirstWithIdent(w, slots[1..], ident, i - 1) {
          assert slots[i] == slots[1..][i - 1];
        }
        forall i | FirstWithIdent(w, slots[1..], ident, i) ensures FirstWithIdent(w, slots, ident, i + 1) {
          assert slots[1..][i] == slots[i + 1] && forall j :: 0 < j <= i ==> slots[j] == slots[1..][j - 1];
        }
      }
    }
  }

  /** The state in which the second attempt is made, on the card shown by reader `i`. */
  function Reconnected(w: World, st: CardState, pin: string, peerPk: Bytes, chip: nat): CardState {
    var st1 := TryDecipher(w, st, pin, peerPk).0;
    st1.(clock := st.clock + 2, reconnects := st.reconnects + 1, held := chip)
  }

  /** A request can succeed at once, or after one reconnect to the first reader that shows the ident again. */
  ghost predicate CanSucceed(w: World, st: CardState, ident: string, pin: string, peerPk: Bytes) {
    var readers := w.readers(st.clock + 1);
    || CardAnswers(w, st, pin, peerPk)
    || (readers.Some?
        && exists i :: FirstWithIdent(w, readers.value, ident, i)
             && CardAnswers(w, Reconnected(w, st, pin, peerPk, readers.value[i].chip), pin, peerPk))
  }

  /** Exactly when a request succeeds; a first attempt that succeeds is not followed by anything. */
  lemma RequestSucceedsIff(w: World, st: CardState, ident: string, pin: string, peerPk: Bytes)
    ensures var (st1, r) := DecipherWithRetry(w, st, ident, pin, peerPk);
            && (r.Ok? <==> CanSucceed(w, st, ident, pin, peerPk))
            && (CardAnswers(w, st, pin, peerPk) ==>
                  r == Ok(w.dh(w.secret(st.held), peerPk)[..32]) && st1.reconnects == st.reconnects)
  {
    AttemptOutcome(w, st, pin, peerPk);
    var readers := w.readers(st.clock + 1);
    if !CardAnswers(w, st, pin, peerPk) && readers.Some? {
      FindsFirst(w, readers.value, ident);
      var found := FindIdent(w, readers.value, ident);
      if found.Some? {
        AttemptOutcome(w, Reconnected(w, st, pin, peerPk, found.value), pin, peerPk);
      }
    }
  }

  /** A reconnect that fails ends the request, with its own error and without a second attempt. */
  lemma FailedReconnectEnds(w: World, st: CardState, ident: string, pin: string, peerPk: Bytes)
    requires !CardAnswers(w, st, pin, peerPk)
    requires var readers := w.readers(st.clock + 1);
             readers.Some? ==> forall i :: 0 <= i < |readers.value| && readers.value[i].Ready? ==>
                                 w.ident(readers.value[i].chip) != ident
    ensures var (st1, r) := DecipherWithRetry(w, st, ident, pin, peerPk);
            && r == Err(if w.readers(st.clock + 1).None? then CardError else CardNotFound)
            && st1 == TryDecipher(w, st, pin, peerPk).0.(clock := st.clock + 2, reconnects := st.reconnects + 1)
  {
    AttemptOutcome(w, st, pin, peerPk);
    if w.readers(st.clock + 1).Some? {
      FindsFirst(w, w.readers(st.clock + 1).value, ident);
    }
  }

  // ---------------------------------------------------------------- stickiness, budget, counter

  /** However a request goes, the held card keeps the ident fixed at open; a failed reconnect changes no card. */
  lemma HeldKeepsIdent(w: World, st: CardState, ident: string, pin: string, peerPk: Bytes)
    requires w.ident(st.held) == ident
    ensures w.ident(DecipherWithRetry(w, st, ident, pin, peerPk).0.held) == ident
    ensures var (st1, r) := Reconnect(w, st, ident);
            st1.chips == st.chips && (r.Err? ==> st1.held == st.held) && w.ident(st1.held) == ident
  {
    ReconnectFinds(w, st, ident);
    var (st1, r) := TryDecipher(w, st, pin, peerPk);
    ReconnectFinds(w, st1, ident);
  }

  lemma ReconnectFinds(w: World, st: CardState, ident: string)
    ensures Reconnect(w, st, ident).1.Ok? ==> w.ident(Reconnect(w, st, ident).0.held) == ident
  {
    if w.readers(st.clock).Some? {
      FoundHasIdent(w, w.readers(st.clock).value, ident);
    }
  }

  /** One request makes at most two verify attempts and one reconnect, and only a request that needed a second
      attempt reconnects. No card but the two held ones can lose a try, and together they lose at most as many as
      were spent. */
  lemma RequestBudget(w: World, st: CardState, ident: string, pin: string, peerPk: Bytes)
    ensures var st1 := DecipherWithRetry(w, st, ident, pin, peerPk).0;
            && Spent(st, st1)
            && st1.verifies <= st.verifies + 2 && st1.reconnects <= st.reconnects + 1
            && (st1.verifies == st.verifies + 2 ==> st1.reconnects == st.reconnects + 1)
            && (forall id :: id in st.chips && id != st.held && id != st1.held ==> st1.chips[id] == st.chips[id])
  {
    TrySpends(w, st, pin, peerPk);
    var st1 := TryDecipher(w, st, pin, peerPk).0;
    TrySpends(w, Reconnect(w, st1, ident).0, pin, peerPk);
  }

  /** Between two states no card changes its PIN or loses more tries than were attempted. */
  ghost predicate Spent(st: CardState, st1: CardState) {
    && st.verifies <= st1.verifies && st1.chips.Keys == st.chips.Keys
    && forall id :: id in st.chips ==>
         && st1.chips[id].pin == st.chips[id].pin
         && st.chips[id].tries - st1.chips[id].tries <= st1.verifies - st.verifies
  }

  lemma TrySpends(w: World, st: CardState, pin: string, peerPk: Bytes)
    ensures var st1 := TryDecipher(w, st, pin, peerPk).0;
            && Spent(st, st1) && st1.verifies <= st.verifies + 1 && st1.reconnects == st.reconnects
            && st1.held == st.held
            && forall id :: id in st.chips && id != st.held ==> st1.chips[id] == st.chips[id]
  {
  }

  /** Every card that bears the ident has this PIN. */
  ghost predicate PinIs(w: World, chips: map<nat, Chip>, ident: string, pin: string) {
    forall id :: id in chips && w.ident(id) == ident ==> chips[id].pin == pin
  }

  /** While the PIN is right, no card ever loses a try. */
  lemma RightPinNeverCosts(w: World, st: CardState, ident: string, pin: string, peerPk: Bytes)
    requires w.ident(st.held) == ident && PinIs(w, st.chips, ident, pin)
    ensures var st1 := DecipherWithRetry(w, st, ident, pin, peerPk).0;
            && st1.chips.Keys == st.chips.Keys && PinIs(w, st1.chips, ident, pin)
            && forall id :: id in st.chips ==> st.chips[id].tries <= st1.chips[id].tries
  {
    TryRightPin(w, st, pin, peerPk);
    var (st1, r) := TryDecipher(w, st, pin, peerPk);
    ReconnectFinds(w, st1, ident);
    var st2 := Reconnect(w, st1, ident).0;
    if Reconnect(w, st1, ident).1.Ok? {
      TryRightPin(w, st2, pin, peerPk);
    }
  }

  lemma TryRightPin(w: World, st: CardState, pin: string, peerPk: Bytes)
    requires st.held in st.chips ==> st.chips[st.held].pin == pin
    ensures var st1 := TryDecipher(w, st, pin, peerPk).0;
            && st1.chips.Keys == st.chips.Keys && st1.held == st.held
            && forall id :: id in st.chips ==>
                 st1.chips[id].pin == st.chips[id].pin && st.chips[id].tries <= st1.chips[id].tries
  {
  }

  /** Once the PIN is wrong and the transport works, one request costs two tries: the retry repeats the same
      mistake. */
  lemma WrongPinCostsTwo(w: World, st: CardState, ident: string, pin: string, peerPk: Bytes)
    requires st.held in st.chips && st.chips[st.held].pin != pin
    requires w.transactionOk(st.clock) && w.verifyOk(st.clock)
    requires w.transactionOk(st.clock + 2) && w.verifyOk(st.clock + 2)
    requires w.readers(st.clock + 1).Some? && FindIdent(w, w.readers(st.clock + 1).value, ident) == Some(st.held)
    ensures var (st1, r) := DecipherWithRetry(w, st, ident, pin, peerPk);
            r == Err(PinFailed) && st1.verifies == st.verifies + 2 && st1.held in st1.chips
            && st1.chips[st1.held].tries == if st.chips[st.held].tries < 2 then 0 else st.chips[st.held].tries - 2
  {
  }

  /** One failure of whatever kind is absorbed: if the card can be found again and the second attempt meets no
      obstacle, the request succeeds. */
  lemma RetryRecovers(w: World, st: CardState, ident: string, pin: string, peerPk: Bytes, id: nat)
    requires id in st.chips && st.chips[id].pin == pin && st.chips[id].tries > 0
    requires w.readers(st.clock + 1).Some? && FindIdent(w, w.readers(st.clock + 1).value, ident) == Some(id)
    requires w.transactionOk(st.clock + 2) && w.verifyOk(st.clock + 2) && w.decipherOk(st.clock + 2)
    requires |w.dh(w.secret(id), peerPk)| >= KEY_LEN && !AllZero(w.dh(w.secret(id), peerPk)[..KEY_LEN])
    ensures var (st1, r) := DecipherWithRetry(w, st, ident, pin, peerPk);
            && r.Ok?
            && (!CardAnswers(w, st, pin, peerPk) ==> st1.held == id && st1.reconnects == st.reconnects + 1)
  {
    AttemptOutcome(w, st, pin, peerPk);
    var st1 := TryDecipher(w, st, pin, peerPk).0;
    TrySpends(w, st, pin, peerPk);
    assert st1.chips[id].tries > 0;
  }

  // ---------------------------------------------------------------- the results

  /** Cards with the same ident hold the same key. */
  ghost predicate IdentFixesKey(w: World) {
    forall a: nat, b: nat :: w.ident(a) == w.ident(b) ==> w.secret(a) == w.secret(b)
  }

  /** `k` is the shared secret of the card bearing `ident` with the peer, and it is not zero. */
  ghost predicate SharedSecret(w: World, ident: string, peerPk: Bytes, k: Bytes) {
    && |k| == 32 && (exists i :: 0 <= i < 32 && k[i] != 0)
    && exists id: nat :: w.ident(id) == ident && k <= w.dh(w.secret(id), peerPk)
  }

  /** Any card with the ident gives that secret. */
  lemma SharedSecretOfHeld(w: World, ident: string, held: nat, peerPk: Bytes, k: Bytes)
    requires IdentFixesKey(w) && w.ident(held) == ident && SharedSecret(w, ident, peerPk, k)
    ensures var ss := w.dh(w.secret(held), peerPk);
            |ss| >= KEY_LEN && k == ss[..KEY_LEN]
  {
    var id: nat :| w.ident(id) == ident && k <= w.dh(w.secret(id), peerPk);
    assert w.secret(id) == w.secret(held);
  }

  /** A successful request returns the non-zero shared secret for its own peer, even across a reconnect, and the
      card it came from had accepted the PIN. */
  lemma SuccessIsSharedSecret(w: World, st: CardState, ident: string, pin: string, peerPk: Bytes)
    requires w.ident(st.held) == ident
    ensures var (st1, r) := DecipherWithRetry(w, st, ident, pin, peerPk);
            r.Ok? ==>
              && SharedSecret(w, ident, peerPk, r.value)
              && st1.held in st1.chips && st1.chips[st1.held] == Chip(pin, MAX_TRIES)
  {
    var (st1, r) := TryDecipher(w, st, pin, peerPk);
    if r.Ok? {
      assert r.value <= w.dh(w.secret(st.held), peerPk);
    } else {
      ReconnectFinds(w, st1, ident);
      var (st2, again) := Reconnect(w, st1, ident);
      if again.Ok? {
        var (st3, r2) := TryDecipher(w, st2, pin, peerPk);
        if r2.Ok? {
          assert r2.value <= w.dh(w.secret(st2.held), peerPk);
        }
      }
    }
  }
}
