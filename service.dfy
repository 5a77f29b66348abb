/** The prediction store: hourly creation of a consensus prediction, the
    settlement of every horizon once it has expired, and the accuracy
    rollups over settled horizons. The SQLite tables are sequences of rows;
    the clock is a parameter (`now`, in milliseconds) and the historical
    price lookup is an injected function that may fail. */
module PredictionService {
  import opened Shapes
  import opened Numeric
  import opened Lists
  import opened Consensus
  import opened Aggregator

  const HourMs: int := 3600000
  const DayMs: int := 86400000
  /** A realised move within this many percent either way counts as flat. */
  const FlatBandPct: real := 0.5

  // ------------------------------------------------------------ directions

  /** getPredictedDirection: up or down only when that side leads by more than the margin. */
  function PredictedDirection(probUp: real, probDown: real): (d: Direction)
    ensures d == Up <==> probUp > probDown + LeanMargin
    ensures d == Down <==> probDown > probUp + LeanMargin
    ensures d == Flat <==> probDown - LeanMargin <= probUp <= probDown + LeanMargin
  {
    if probUp > probDown + LeanMargin then Up
    else if probDown > probUp + LeanMargin then Down
    else Flat
  }

  /** The settlement rule agrees with the aggregator's lean of a forecast. */
  lemma PredictedDirectionIsLean(probUp: real, probDown: real)
    ensures PredictedDirection(probUp, probDown) == Up <==> LeanOf(probUp, probDown) == Bullish
    ensures PredictedDirection(probUp, probDown) == Down <==> LeanOf(probUp, probDown) == Bearish
  {
  }

  /** The realised return in percent of the reference price. */
  function ReturnPct(startPrice: real, endPrice: real): real
    requires startPrice != 0.0
  {
    (endPrice - startPrice) / startPrice * 100.0
  }

  /** The realised direction: a move beyond the flat band either way. */
  function ActualDirection(returnPct: real): (d: Direction)
    ensures d == Up <==> returnPct > FlatBandPct
    ensures d == Down <==> returnPct < -FlatBandPct
  {
    if returnPct > FlatBandPct then Up
    else if returnPct < -FlatBandPct then Down
    else Flat
  }

  /** In prices: up means the end price exceeds the start by more than 0.5%,
      down that it falls short of it by more than 0.5%. */
  lemma RealisedDirectionInPrices(startPrice: real, endPrice: real)
    requires startPrice > 0.0
    ensures ActualDirection(ReturnPct(startPrice, endPrice)) == Up <==> endPrice > startPrice * 1.005
    ensures ActualDirection(ReturnPct(startPrice, endPrice)) == Down <==> endPrice < startPrice * 0.995
  {
    var q := (endPrice - startPrice) / startPrice;
    assert q * startPrice == endPrice - startPrice;
    assert ReturnPct(startPrice, endPrice) == q * 100.0;
    assert q > 0.005 <==> endPrice > startPrice * 1.005 by {
      assert (q - 0.005) * startPrice == endPrice - startPrice * 1.005;
    }
    assert q < -0.005 <==> endPrice < startPrice * 0.995 by {
      assert (q + 0.005) * startPrice == endPrice - startPrice * 0.995;
    }
  }

  /** `{ '1h': 1, '4h': 4, '24h': 24 }[windowType] || 1`. */
  function WindowHours(windowType: string): (h: nat)
    ensures h >= 1
    ensures forall w :: windowType == WindowKey(w) ==> h == HorizonHours(w)
  {
    if windowType == "1h" then 1
    else if windowType == "4h" then 4
    else if windowType == "24h" then 24
    else 1
  }

  /** The length of each horizon. */
  function HorizonHours(w: WindowType): nat {
    match w
    case H1 => 1
    case H4 => 4
    case H24 => 24
  }

  /** The moment a horizon of a prediction made at `createdAt` expires. */
  function EndTime(createdAt: int, windowType: string): (t: int)
    ensures t > createdAt
  {
    createdAt + WindowHours(windowType) * HourMs
  }

  // ------------------------------------------------------------ rows

  datatype HealthGrade = Normal | Degraded | Halted

  datatype Health = Health(grade: HealthGrade, reason: string)

  datatype PredictionRow = PredictionRow(
    id: string,
    createdAt: int,
    btcPrice: real,
    health: Health,
    consensusStrength: int,
    divergenceSummary: seq<Divergence>)

  /** One horizon of a stored consensus prediction. */
  datatype WindowRow = WindowRow(predictionId: string, windowType: string, window: AggregatedWindow)

  /** One horizon of one model's forecast, stored with the prediction. */
  datatype AIOutputRow = AIOutputRow(
    predictionId: string,
    aiName: string,
    windowType: string,
    probUp: real,
    probDown: real,
    probFlat: real,
    confidence: real,
    reasoning: string,
    rawResponse: string)

  datatype SettlementRow = SettlementRow(
    predictionId: string,
    windowType: string,
    actualReturnPct: real,
    actualDirection: Direction,
    predictedDirection: Direction,
    isHit: bool,
    settledAt: int,
    startPrice: real,
    endPrice: real)

  datatype AISettlementRow = AISettlementRow(
    predictionId: string,
    aiName: string,
    windowType: string,
    predictedDirection: Direction,
    actualDirection: Direction,
    confidence: real,
    isHit: bool,
    settledAt: int)

  /** A settled horizon is identified by its prediction and window type. */
  datatype Key = Key(predictionId: string, windowType: string)

  function KeyOf(s: SettlementRow): Key {
    Key(s.predictionId, s.windowType)
  }

  function KeyOfAI(a: AISettlementRow): Key {
    Key(a.predictionId, a.windowType)
  }

  /** A model's settlement is identified by the horizon and the model's name. */
  datatype AIKey = AIKey(predictionId: string, windowType: string, aiName: string)

  function AIKeyOf(a: AISettlementRow): AIKey {
    AIKey(a.predictionId, a.windowType, a.aiName)
  }

  /** The settlements and the per-model settlements: the tables a settlement pass writes. */
  datatype Ledger = Ledger(settlements: seq<SettlementRow>, aiSettlements: seq<AISettlementRow>)

  predicate Settled(settlements: seq<SettlementRow>, k: Key) {
    exists s :: s in settlements && KeyOf(s) == k
  }

  predicate AISettled(aiSettlements: seq<AISettlementRow>, k: AIKey) {
    exists a :: a in aiSettlements && AIKeyOf(a) == k
  }

  ghost function Keys(settlements: seq<SettlementRow>): set<Key> {
    set s | s in settlements :: KeyOf(s)
  }

  predicate UniqueKeys(settlements: seq<SettlementRow>) {
    forall i, j :: 0 <= i < j < |settlements| ==> KeyOf(settlements[i]) != KeyOf(settlements[j])
  }

  predicate UniqueAIKeys(aiSettlements: seq<AISettlementRow>) {
    forall i, j :: 0 <= i < j < |aiSettlements| ==> AIKeyOf(aiSettlements[i]) != AIKeyOf(aiSettlements[j])
  }

  /** A settlement row's return, realised direction and hit flag agree with its prices. */
  predicate Coherent(s: SettlementRow) {
    && s.startPrice != 0.0
    && s.actualReturnPct == ReturnPct(s.startPrice, s.endPrice)
    && s.actualDirection == ActualDirection(s.actualReturnPct)
    && s.isHit == (s.actualDirection == s.predictedDirection)
  }

  predicate AICoherent(a: AISettlementRow) {
    a.isHit == (a.actualDirection == a.predictedDirection)
  }

  /** Each horizon settled at most once, each model at most once per horizon,
      and every row's hit flag agrees with its directions. */
  predicate Sound(l: Ledger) {
    && UniqueKeys(l.settlements)
    && UniqueAIKeys(l.aiSettlements)
    && (forall s :: s in l.settlements ==> Coherent(s))
    && (forall a :: a in l.aiSettlements ==> AICoherent(a))
  }

  // ------------------------------------------------------------ settlement

  /** The window rows of one prediction, in table order. */
  function WindowsFor(windows: seq<WindowRow>, predictionId: string): (r: seq<WindowRow>)
    ensures forall w :: w in r <==> w in windows && w.predictionId == predictionId
  {
    if windows == [] then []
    else
      var rest := WindowsFor(windows[..|windows| - 1], predictionId);
      var w := windows[|windows| - 1];
      if w.predictionId == predictionId then rest + [w] else rest
  }

  /** The stored model outputs of one horizon, in table order. */
  function OutputsFor(outputs: seq<AIOutputRow>, k: Key): (r: seq<AIOutputRow>)
    ensures forall o :: o in r <==> o in outputs && o.predictionId == k.predictionId && o.windowType == k.windowType
  {
    if outputs == [] then []
    else
      var rest := OutputsFor(outputs[..|outputs| - 1], k);
      var o := outputs[|outputs| - 1];
      if o.predictionId == k.predictionId && o.windowType == k.windowType then rest + [o] else rest
  }

  /** The settlement of a horizon once its end price is known. */
  function SettlementFor(p: PredictionRow, w: WindowRow, endPrice: real, now: int): (s: SettlementRow)
    requires p.btcPrice != 0.0
    ensures Coherent(s) && s.settledAt == now && KeyOf(s) == Key(p.id, w.windowType)
  {
    var returnPct := ReturnPct(p.btcPrice, endPrice);
    var actual := ActualDirection(returnPct);
    var predicted := PredictedDirection(w.window.probUp, w.window.probDown);
    SettlementRow(p.id, w.windowType, returnPct, actual, predicted, actual == predicted, now, p.btcPrice, endPrice)
  }

  /** The settlement of one model's forecast for a horizon settled as `s`. */
  function AISettlementFor(s: SettlementRow, o: AIOutputRow): (a: AISettlementRow)
    ensures AICoherent(a) && KeyOfAI(a) == KeyOf(s) && a.aiName == o.aiName
    ensures a.actualDirection == s.actualDirection && a.settledAt == s.settledAt
  {
    var predicted := PredictedDirection(o.probUp, o.probDown);
    AISettlementRow(s.predictionId, o.aiName, s.windowType, predicted, s.actualDirection, o.confidence,
      s.actualDirection == predicted, s.settledAt)
  }

  /** The inner loop: settles each model's output unless that model already has a row. */
  function SettleOutputs(ai: seq<AISettlementRow>, s: SettlementRow, outs: seq<AIOutputRow>): seq<AISettlementRow> {
    if outs == [] then ai
    else
      var prev := SettleOutputs(ai, s, outs[..|outs| - 1]);
      var o := outs[|outs| - 1];
      if AISettled(prev, AIKey(s.predictionId, s.windowType, o.aiName)) then prev
      else prev + [AISettlementFor(s, o)]
  }

  /** A horizon can be settled in this pass: it has expired, the end price
      is known and the prediction has a reference price to compare with. */
  predicate Ready(p: PredictionRow, windowType: string, now: int, priceAt: int -> Option<real>) {
    && now > EndTime(p.createdAt, windowType)
    && priceAt(EndTime(p.createdAt, windowType)).Some?
    && p.btcPrice != 0.0
  }

  /** One horizon of the settlement pass. */
  function SettleWindow(l: Ledger, p: PredictionRow, w: WindowRow, outputs: seq<AIOutputRow>,
                        now: int, priceAt: int -> Option<real>): Ledger
  {
    var k := Key(p.id, w.windowType);
    if Settled(l.settlements, k) then l
    else
      var endTime := EndTime(p.createdAt, w.windowType);
      if now <= endTime then l
      else
        match priceAt(endTime)
        case None => l
        case Some(endPrice) =>
          if p.btcPrice == 0.0 then l
          else
            var s := SettlementFor(p, w, endPrice, now);
            Ledger(l.settlements + [s], SettleOutputs(l.aiSettlements, s, OutputsFor(outputs, k)))
  }

  /** The horizons of one prediction, in order. */
  function SettleWindows(l: Ledger, p: PredictionRow, ws: seq<WindowRow>, outputs: seq<AIOutputRow>,
                         now: int, priceAt: int -> Option<real>): Ledger
  {
    if ws == [] then l
    else SettleWindow(SettleWindows(l, p, ws[..|ws| - 1], outputs, now, priceAt), p, ws[|ws| - 1], outputs, now, priceAt)
  }

  /** settleExpiredWindows: every prediction in order, each over its own window rows. */
  function SettlePredictions(l: Ledger, ps: seq<PredictionRow>, windows: seq<WindowRow>, outputs: seq<AIOutputRow>,
                             now: int, priceAt: int -> Option<real>): Ledger
  {
    if ps == [] then l
    else
      var p := ps[|ps| - 1];
      SettleWindows(SettlePredictions(l, ps[..|ps| - 1], windows, outputs, now, priceAt),
        p, WindowsFor(windows, p.id), outputs, now, priceAt)
  }

  /** The horizons of `ps` that a pass at `now` can settle. */
  ghost function ReadyKeys(ps: seq<PredictionRow>, windows: seq<WindowRow>, now: int, priceAt: int -> Option<real>): set<Key> {
    set p, w | p in ps && w in windows && w.predictionId == p.id && Ready(p, w.windowType, now, priceAt) :: Key(p.id, w.windowType)
  }

  ghost function WindowReadyKeys(p: PredictionRow, ws: seq<WindowRow>, now: int, priceAt: int -> Option<real>): set<Key> {
    set w | w in ws && Ready(p, w.windowType, now, priceAt) :: Key(p.id, w.windowType)
  }

  /** What a pass may do to the ledger: append only, keep it sound, stamp
      new rows with `now`, and write a model's settlement only for a
      horizon whose consensus settlement it writes too. */
  ghost predicate Advances(l: Ledger, r: Ledger, now: int) {
    && l.settlements <= r.settlements
    && l.aiSettlements <= r.aiSettlements
    && (Sound(l) ==> Sound(r))
    && (forall i :: |l.settlements| <= i < |r.settlements| ==> r.settlements[i].settledAt == now)
    && (forall i :: |l.aiSettlements| <= i < |r.aiSettlements| ==>
          r.aiSettlements[i].settledAt == now
          && KeyOfAI(r.aiSettlements[i]) in Keys(r.settlements)
          && KeyOfAI(r.aiSettlements[i]) !in Keys(l.settlements))
  }

  /** The inner loop only appends rows for the horizon `s`, stamped like
      `s`, at most one per model, and leaves every model of `outs` settled. */
  lemma {:induction false} SettleOutputsAppends(ai: seq<AISettlementRow>, s: SettlementRow, outs: seq<AIOutputRow>)
    ensures var r := SettleOutputs(ai, s, outs);
      && ai <= r
      && (forall i :: |ai| <= i < |r| ==>
            KeyOfAI(r[i]) == KeyOf(s) && r[i].settledAt == s.settledAt
            && r[i].actualDirection == s.actualDirection && AICoherent(r[i]))
      && (UniqueAIKeys(ai) ==> UniqueAIKeys(r))
      && (forall o :: o in outs ==> AISettled(r, AIKey(s.predictionId, s.windowType, o.aiName)))
  {
    if outs != [] {
      var init, o := outs[..|outs| - 1], outs[|outs| - 1];
      SettleOutputsAppends(ai, s, init);
      var prev := SettleOutputs(ai, s, init);
      var k := AIKey(s.predictionId, s.windowType, o.aiName);
      if !AISettled(prev, k) {
        var a := AISettlementFor(s, o);
        var r := prev + [a];
        assert r[|prev|] == a;
        assert AIKeyOf(a) == k;
        forall i | 0 <= i < |prev|
          ensures AIKeyOf(r[i]) != AIKeyOf(a)
        {
          assert r[i] == prev[i] && prev[i] in prev;
        }
        forall x | x in outs
          ensures AISettled(r, AIKey(s.predictionId, s.windowType, x.aiName))
        {
          if x != o {
            assert x in init;
            var b :| b in prev && AIKeyOf(b) == AIKey(s.predictionId, s.windowType, x.aiName);
            assert b in r;
          } else {
            assert a in r;
          }
        }
      } else {
        forall x | x in outs
          ensures AISettled(prev, AIKey(s.predictionId, s.windowType, x.aiName))
        {
          if x != o {
            assert x in init;
          }
        }
      }
    }
  }

  /** Settling a horizon that is not yet settled and is ready adds its key;
      any other horizon leaves the ledger as it was. */
  lemma SettleWindowAdvances(l: Ledger, p: PredictionRow, w: WindowRow, outputs: seq<AIOutputRow>,
                             now: int, priceAt: int -> Option<real>)
    ensures Advances(l, SettleWindow(l, p, w, outputs, now, priceAt), now)
    ensures Keys(SettleWindow(l, p, w, outputs, now, priceAt).settlements)
      == Keys(l.settlements) + (if Ready(p, w.windowType, now, priceAt) then {Key(p.id, w.windowType)} else {})
  {
    var k := Key(p.id, w.windowType);
    if !Settled(l.settlements, k) && Ready(p, w.windowType, now, priceAt) {
      SettleReadyWindow(l, p, w, outputs, now, priceAt);
    } else {
      assert SettleWindow(l, p, w, outputs, now, priceAt) == l;
      assert Ready(p, w.windowType, now, priceAt) ==> k in Keys(l.settlements);
    }
  }

  /** A due, priced and unsettled horizon gets exactly one new settlement. */
  lemma SettleReadyWindow(l: Ledger, p: PredictionRow, w: WindowRow, outputs: seq<AIOutputRow>,
                          now: int, priceAt: int -> Option<real>)
    requires !Settled(l.settlements, Key(p.id, w.windowType)) && Ready(p, w.windowType, now, priceAt)
    ensures Advances(l, SettleWindow(l, p, w, outputs, now, priceAt), now)
    ensures Keys(SettleWindow(l, p, w, outputs, now, priceAt).settlements) == Keys(l.settlements) + {Key(p.id, w.windowType)}
  {
    var k := Key(p.id, w.windowType);
    var r := SettleWindow(l, p, w, outputs, now, priceAt);
    var endPrice := priceAt(EndTime(p.createdAt, w.windowType)).value;
    var s := SettlementFor(p, w, endPrice, now);
    assert r.settlements == l.settlements + [s];
    SettleOutputsAppends(l.aiSettlements, s, OutputsFor(outputs, k));
    assert Keys(r.settlements) == Keys(l.settlements) + {k};
    assert k !in Keys(l.settlements);
    if Sound(l) {
      forall i | 0 <= i < |l.settlements|
        ensures KeyOf(r.settlements[i]) != KeyOf(s)
      {
        assert l.settlements[i] in l.settlements;
      }
      assert UniqueKeys(r.settlements);
    }
  }

  lemma AdvancesTransitive(a: Ledger, b: Ledger, c: Ledger, now: int)
    requires Advances(a, b, now) && Advances(b, c, now)
    ensures Advances(a, c, now)
  {
    forall s | s in b.settlements
      ensures s in c.settlements
    {
    }
    assert Keys(b.settlements) <= Keys(c.settlements);
    assert Keys(a.settlements) <= Keys(b.settlements);
    forall i | |a.aiSettlements| <= i < |b.aiSettlements|
      ensures c.aiSettlements[i] == b.aiSettlements[i]
    {
    }
  }

  /** The horizons of one prediction: the new keys are exactly its ready horizons. */
  lemma {:induction false} SettleWindowsAdvances(l: Ledger, p: PredictionRow, ws: seq<WindowRow>, outputs: seq<AIOutputRow>,
                                                 now: int, priceAt: int -> Option<real>)
    ensures Advances(l, SettleWindows(l, p, ws, outputs, now, priceAt), now)
    ensures Keys(SettleWindows(l, p, ws, outputs, now, priceAt).settlements)
      == Keys(l.settlements) + WindowReadyKeys(p, ws, now, priceAt)
  {
    if ws == [] {
      assert WindowReadyKeys(p, ws, now, priceAt) == {};
    } else {
      var init, w := ws[..|ws| - 1], ws[|ws| - 1];
      assert ws == init + [w];
      SettleWindowsAdvances(l, p, init, outputs, now, priceAt);
      var mid := SettleWindows(l, p, init, outputs, now, priceAt);
      SettleWindowAdvances(mid, p, w, outputs, now, priceAt);
      AdvancesTransitive(l, mid, SettleWindow(mid, p, w, outputs, now, priceAt), now);
      WindowReadyKeysAppend(p, init, w, now, priceAt);
    }
  }

  lemma WindowReadyKeysAppend(p: PredictionRow, init: seq<WindowRow>, w: WindowRow, now: int, priceAt: int -> Option<real>)
    ensures WindowReadyKeys(p, init + [w], now, priceAt) == WindowReadyKeys(p, init, now, priceAt)
      + (if Ready(p, w.windowType, now, priceAt) then {Key(p.id, w.windowType)} else {})
  {
  }

  lemma ReadyKeysAppend(ps: seq<PredictionRow>, p: PredictionRow, windows: seq<WindowRow>, now: int, priceAt: int -> Option<real>)
    ensures ReadyKeys(ps + [p], windows, now, priceAt)
      == ReadyKeys(ps, windows, now, priceAt) + WindowReadyKeys(p, WindowsFor(windows, p.id), now, priceAt)
  {
    var all := ps + [p];
    forall q | q in all
      ensures q in ps || q == p
    {
    }
  }

  /** A whole pass: the settled keys afterwards are those before plus the
      ready horizons of every prediction. A horizon that has not expired, or
      whose end price cannot be looked up, stays pending; every other
      horizon gets settled. */
  lemma {:induction false} SettlePredictionsAdvances(l: Ledger, ps: seq<PredictionRow>, windows: seq<WindowRow>,
                                                     outputs: seq<AIOutputRow>, now: int, priceAt: int -> Option<real>)
    ensures Advances(l, SettlePredictions(l, ps, windows, outputs, now, priceAt), now)
    ensures Keys(SettlePredictions(l, ps, windows, outputs, now, priceAt).settlements)
      == Keys(l.settlements) + ReadyKeys(ps, windows, now, priceAt)
  {
    if ps == [] {
      assert ReadyKeys(ps, windows, now, priceAt) == {};
    } else {
      var init, p := ps[..|ps| - 1], ps[|ps| - 1];
      assert ps == init + [p];
      SettlePredictionsAdvances(l, init, windows, outputs, now, priceAt);
      var mid := SettlePredictions(l, init, windows, outputs, now, priceAt);
      SettleWindowsAdvances(mid, p, WindowsFor(windows, p.id), outputs, now, priceAt);
      AdvancesTransitive(l, mid, SettlePredictions(l, ps, windows, outputs, now, priceAt), now);
      ReadyKeysAppend(init, p, windows, now, priceAt);
    }
  }

  /** A pass changes nothing when every ready horizon is already settled. */
  lemma {:induction false} SettleWindowsStable(l: Ledger, p: PredictionRow, ws: seq<WindowRow>, outputs: seq<AIOutputRow>,
                                               now: int, priceAt: int -> Option<real>)
    requires WindowReadyKeys(p, ws, now, priceAt) <= Keys(l.settlements)
    ensures SettleWindows(l, p, ws, outputs, now, priceAt) == l
  {
    if ws != [] {
      var init, w := ws[..|ws| - 1], ws[|ws| - 1];
      assert WindowReadyKeys(p, init, now, priceAt) <= WindowReadyKeys(p, ws, now, priceAt);
      SettleWindowsStable(l, p, init, outputs, now, priceAt);
      if Ready(p, w.windowType, now, priceAt) {
        assert Key(p.id, w.windowType) in Keys(l.settlements);
      }
    }
  }

  lemma {:induction false} SettlePredictionsStable(l: Ledger, ps: seq<PredictionRow>, windows: seq<WindowRow>,
                                                   outputs: seq<AIOutputRow>, now: int, priceAt: int -> Option<real>)
    requires ReadyKeys(ps, windows, now, priceAt) <= Keys(l.settlements)
    ensures SettlePredictions(l, ps, windows, outputs, now, priceAt) == l
  {
    if ps != [] {
      var init, p := ps[..|ps| - 1], ps[|ps| - 1];
      assert ps == init + [p];
      ReadyKeysAppend(init, p, windows, now, priceAt);
      SettlePredictionsStable(l, init, windows, outputs, now, priceAt);
      SettleWindowsStable(l, p, WindowsFor(windows, p.id), outputs, now, priceAt);
    }
  }

  /** The settlement pass is idempotent: running it again at the same moment,
      with the same price history, writes nothing. */
  lemma SettleIdempotent(l: Ledger, ps: seq<PredictionRow>, windows: seq<WindowRow>,
                         outputs: seq<AIOutputRow>, now: int, priceAt: int -> Option<real>)
    ensures var r := SettlePredictions(l, ps, windows, outputs, now, priceAt);
      SettlePredictions(r, ps, windows, outputs, now, priceAt) == r
  {
    SettlePredictionsAdvances(l, ps, windows, outputs, now, priceAt);
    SettlePredictionsStable(SettlePredictions(l, ps, windows, outputs, now, priceAt), ps, windows, outputs, now, priceAt);
  }

  // ------------------------------------------------------------ creation

  /** `toLowerCase` on the ASCII letters; other characters are kept. */
  function LowerAscii(s: string): (r: string)
    ensures |r| == |s|
    ensures forall i :: 0 <= i < |r| ==> !('A' <= r[i] <= 'Z')
    ensures forall i :: 0 <= i < |s| && !('A' <= s[i] <= 'Z') ==> r[i] == s[i]
  {
    if s == [] then []
    else
      var c := s[|s| - 1];
      LowerAscii(s[..|s| - 1]) + [if 'A' <= c <= 'Z' then (c as int + 32) as char else c]
  }

  /** The number of model calls that succeeded, whether or not their answer parsed. */
  function SuccessCount(results: seq<AIResult>): (n: nat)
    ensures n <= |results|
    ensures n == 0 ==> Successes(results) == []
  {
    if results == [] then 0
    else SuccessCount(results[..|results| - 1]) + (if results[|results| - 1].success then 1 else 0)
  }

  /** The three stored horizons of a consensus prediction. */
  function ConsensusRows(id: string, results: seq<AIResult>): (rows: seq<WindowRow>)
    requires ParsedResults(results)
    ensures |rows| == |AllWindows|
    ensures forall i :: 0 <= i < |rows| ==> rows[i].predictionId == id && rows[i].windowType == WindowKey(AllWindows[i])
  {
    var succ := Successes(results);
    ParsedHorizonsNormalisable(results, H1);
    ParsedHorizonsNormalisable(results, H4);
    ParsedHorizonsNormalisable(results, H24);
    [WindowRow(id, WindowKey(H1), WindowConsensus(Horizon(succ, H1))),
     WindowRow(id, WindowKey(H4), WindowConsensus(Horizon(succ, H4))),
     WindowRow(id, WindowKey(H24), WindowConsensus(Horizon(succ, H24)))]
  }

  /** The stored horizon `w` of one model's answer. */
  function OutputRow(id: string, r: AIResult, w: WindowType): AIOutputRow
    requires Usable(r)
  {
    var f := r.data.value.Window(w);
    AIOutputRow(id, LowerAscii(r.name), WindowKey(w), f.probUp, f.probDown, f.probFlat, f.confidence,
      r.data.value.reasoning, r.raw)
  }

  /** Three rows per model whose answer parsed, model by model. */
  function OutputRows(id: string, results: seq<AIResult>): (rows: seq<AIOutputRow>)
    ensures forall o :: o in rows ==> o.predictionId == id
  {
    if results == [] then []
    else
      var r := results[|results| - 1];
      OutputRows(id, results[..|results| - 1])
        + (if Usable(r) then [OutputRow(id, r, H1), OutputRow(id, r, H4), OutputRow(id, r, H24)] else [])
  }

  /** Three rows for every usable answer. */
  lemma {:induction false} OutputRowsCount(id: string, results: seq<AIResult>)
    ensures |OutputRows(id, results)| == |AllWindows| * |Successes(results)|
  {
    if results != [] {
      OutputRowsCount(id, results[..|results| - 1]);
    }
  }

  lemma OutputRowsStep(id: string, results: seq<AIResult>, i: int)
    requires 0 <= i < |results|
    ensures var r := results[i];
      OutputRows(id, results[..i + 1]) == OutputRows(id, results[..i])
        + (if Usable(r) then [OutputRow(id, r, H1), OutputRow(id, r, H4), OutputRow(id, r, H24)] else [])
  {
    assert results[..i + 1][..i] == results[..i];
  }

  datatype CreateStatus = Exists | HaltedStatus(reason: string) | AllModelsFailed | Created(successCount: nat)

  predicate UniqueIds(ps: seq<PredictionRow>) {
    forall i, j :: 0 <= i < j < |ps| ==> ps[i].id != ps[j].id
  }

  // ------------------------------------------------------------ rollups

  /** `cutoff.setDate(cutoff.getDate() - days)`, on a clock without daylight saving. */
  function Cutoff(now: int, days: int): int {
    now - days * DayMs
  }

  /** The time a settlement was made, by which the rollups filter. */
  function SettledAtOf(s: SettlementRow): int {
    s.settledAt
  }

  /** The time a per-model settlement was made. */
  function AISettledAtOf(s: AISettlementRow): int {
    s.settledAt
  }

  /** A window type that has counters: "1h", "4h" or "24h". */
  predicate KnownWindow(windowType: string) {
    windowType == WindowKey(H1) || windowType == WindowKey(H4) || windowType == WindowKey(H24)
  }

  /** The counters kept for one horizon: rows counted, hits, summed confidence. */
  datatype Tally = Tally(total: nat, hits: nat, confidenceSum: real)

  const NoTally := Tally(0, 0, 0.0)

  /** `total++; if (isHit) hits++; confidence += conf`. */
  function Tick(t: Tally, isHit: bool, confidence: real): Tally {
    Tally(t.total + 1, if isHit then t.hits + 1 else t.hits, t.confidenceSum + confidence)
  }

  datatype WindowReport = WindowReport(total: nat, hits: nat, hitRate: real, avgConfidence: int)

  /** The reported figures of a tally: the hit rate times `scale` and the
      rounded mean confidence, both 0 when nothing was counted. */
  function Report(t: Tally, scale: real): WindowReport {
    if t.total > 0 then
      WindowReport(t.total, t.hits, t.hits as real / t.total as real * scale, Round(t.confidenceSum / t.total as real))
    else WindowReport(t.total, t.hits, 0.0, 0)
  }

  /** A tally whose hits do not exceed its rows reports a hit rate between 0
      and `scale`, and a mean confidence within the rounded bounds of the
      counted confidences. */
  lemma ReportBounds(t: Tally, scale: real, lo: real, hi: real)
    requires t.hits <= t.total && scale >= 0.0
    requires t.total as real * lo <= t.confidenceSum <= t.total as real * hi
    ensures 0.0 <= Report(t, scale).hitRate <= scale
    ensures Report(t, scale).total == t.total && Report(t, scale).hits == t.hits
    ensures t.total == 0 ==> Report(t, scale).hitRate == 0.0 && Report(t, scale).avgConfidence == 0
    ensures t.total > 0 ==> Round(lo) <= Report(t, scale).avgConfidence <= Round(hi)
  {
    HitRateBounds(t, scale);
    if t.total > 0 {
      var n := t.total as real;
      QuotientBounds(t.confidenceSum, n, lo, hi);
      RoundMonotone(lo, t.confidenceSum / n);
      RoundMonotone(t.confidenceSum / n, hi);
    }
  }

  /** A tally whose hits do not exceed its rows reports a hit rate between 0 and `scale`. */
  lemma HitRateBounds(t: Tally, scale: real)
    requires t.hits <= t.total && scale >= 0.0
    ensures 0.0 <= Report(t, scale).hitRate <= scale
  {
    if t.total > 0 {
      var rate := t.hits as real / t.total as real;
      QuotientBounds(t.hits as real, t.total as real, 0.0, 1.0);
      ScaledFraction(rate, scale);
      assert Report(t, scale).hitRate == rate * scale;
    }
  }

  lemma ScaledFraction(r: real, scale: real)
    requires 0.0 <= r <= 1.0 && 0.0 <= scale
    ensures 0.0 <= r * scale <= scale
  {
    assert (1.0 - r) * scale >= 0.0;
  }

  lemma RoundMonotone(x: real, y: real)
    requires x <= y
    ensures Round(x) <= Round(y)
  {
  }

  /** The confidence of each stored horizon, keyed by prediction and window
      type; a later row overwrites an earlier one. */
  function ConfidenceMap(ws: seq<WindowRow>): (m: map<Key, int>)
    ensures forall w :: w in ws ==> Key(w.predictionId, w.windowType) in m
  {
    if ws == [] then map[]
    else
      var w := ws[|ws| - 1];
      ConfidenceMap(ws[..|ws| - 1])[Key(w.predictionId, w.windowType) := w.window.confidence]
  }

  /** Confidences of stored horizons that lie within bounds give a map within them. */
  lemma {:induction false} ConfidenceMapBounds(ws: seq<WindowRow>, lo: int, hi: int)
    requires forall w :: w in ws ==> lo <= w.window.confidence <= hi
    ensures forall k :: k in ConfidenceMap(ws) ==> lo <= ConfidenceMap(ws)[k] <= hi
  {
    if ws != [] {
      ConfidenceMapBounds(ws[..|ws| - 1], lo, hi);
      assert ws[|ws| - 1] in ws;
    }
  }

  /** `confidenceMap[key] || 50`: a missing or zero confidence counts as 50. */
  function ConfidenceOrDefault(m: map<Key, int>, k: Key): (c: int)
    ensures k !in m || m[k] == 0 ==> c == 50
    ensures k in m && m[k] != 0 ==> c == m[k]
  {
    if k in m && m[k] != 0 then m[k] else 50
  }

  /** The getStats counters of one window type over the recent settlements. */
  function WindowTally(rows: seq<SettlementRow>, windowType: string, conf: map<Key, int>): (t: Tally)
    ensures t.hits <= t.total <= |rows|
  {
    if rows == [] then NoTally
    else
      var prev := WindowTally(rows[..|rows| - 1], windowType, conf);
      var s := rows[|rows| - 1];
      if s.windowType == windowType then Tick(prev, s.isHit, ConfidenceOrDefault(conf, KeyOf(s)) as real) else prev
  }

  datatype StatsReport = StatsReport(h1: WindowReport, h4: WindowReport, h24: WindowReport, totalPredictions: real)

  /** getStats over the last `days` days: hit rate as a fraction. */
  function Stats(settlements: seq<SettlementRow>, windows: seq<WindowRow>, now: int, days: int): StatsReport {
    var recent := Since(settlements, SettledAtOf, Cutoff(now, days));
    var conf := ConfidenceMap(windows);
    StatsReport(
      Report(WindowTally(recent, WindowKey(H1), conf), 1.0),
      Report(WindowTally(recent, WindowKey(H4), conf), 1.0),
      Report(WindowTally(recent, WindowKey(H24), conf), 1.0),
      |recent| as real / 3.0)
  }

  /** The number of rows with a known window type, and of those that hit. */
  function CountKnown(rows: seq<SettlementRow>, hitsOnly: bool): (n: nat)
    ensures n <= |rows|
  {
    if rows == [] then 0
    else
      var s := rows[|rows| - 1];
      CountKnown(rows[..|rows| - 1], hitsOnly) + (if KnownWindow(s.windowType) && (s.isHit || !hitsOnly) then 1 else 0)
  }

  /** The three windows' counters split the recent rows of known window type:
      their totals add up to those rows, their hits to those that hit. */
  lemma {:induction false} WindowTalliesPartition(rows: seq<SettlementRow>, conf: map<Key, int>)
    ensures WindowTally(rows, WindowKey(H1), conf).total + WindowTally(rows, WindowKey(H4), conf).total
      + WindowTally(rows, WindowKey(H24), conf).total == CountKnown(rows, false)
    ensures WindowTally(rows, WindowKey(H1), conf).hits + WindowTally(rows, WindowKey(H4), conf).hits
      + WindowTally(rows, WindowKey(H24), conf).hits == CountKnown(rows, true)
  {
    if rows != [] {
      WindowTalliesPartition(rows[..|rows| - 1], conf);
      WindowKeysDistinct();
      TallyStep(rows, WindowKey(H1), conf);
      TallyStep(rows, WindowKey(H4), conf);
      TallyStep(rows, WindowKey(H24), conf);
    }
  }

  /** The three window types are different strings. */
  lemma WindowKeysDistinct()
    ensures WindowKey(H1) != WindowKey(H4) && WindowKey(H1) != WindowKey(H24) && WindowKey(H4) != WindowKey(H24)
  {
    assert WindowKey(H1)[0] != WindowKey(H4)[0];
    assert |WindowKey(H1)| != |WindowKey(H24)|;
    assert |WindowKey(H4)| != |WindowKey(H24)|;
  }

  /** The last row moves the counter of its own window type only. */
  lemma TallyStep(rows: seq<SettlementRow>, windowType: string, conf: map<Key, int>)
    requires rows != []
    ensures var init, s := rows[..|rows| - 1], rows[|rows| - 1];
      && WindowTally(rows, windowType, conf).total
         == WindowTally(init, windowType, conf).total + (if s.windowType == windowType then 1 else 0)
      && WindowTally(rows, windowType, conf).hits
         == WindowTally(init, windowType, conf).hits + (if s.windowType == windowType && s.isHit then 1 else 0)
  {
  }

  /** The summed confidence of a tally lies between its count times `lo` and times `hi`. */
  predicate TallyWithin(t: Tally, lo: real, hi: real) {
    t.total as real * lo <= t.confidenceSum <= t.total as real * hi
  }

  /** Every confidence of the map lies between `lo` and `hi`. */
  predicate MapWithin(conf: map<Key, int>, lo: real, hi: real) {
    forall k :: k in conf ==> lo <= conf[k] as real <= hi
  }

  lemma TickWithin(t: Tally, isHit: bool, c: real, lo: real, hi: real)
    requires TallyWithin(t, lo, hi) && lo <= c <= hi
    ensures TallyWithin(Tick(t, isHit, c), lo, hi)
  {
    var n := t.total as real;
    assert Tick(t, isHit, c).total as real == n + 1.0;
    assert (n + 1.0) * lo == n * lo + lo;
    assert (n + 1.0) * hi == n * hi + hi;
  }

  /** The summed confidence of a window's counters lies within the bounds of the map and the default. */
  lemma {:induction false} WindowTallyConfidence(rows: seq<SettlementRow>, windowType: string, conf: map<Key, int>, lo: real, hi: real)
    requires lo <= 50.0 <= hi && MapWithin(conf, lo, hi)
    ensures TallyWithin(WindowTally(rows, windowType, conf), lo, hi)
  {
    if rows == [] {
      assert TallyWithin(NoTally, lo, hi) by {
        assert NoTally.total as real * lo == 0.0 * lo;
        assert NoTally.total as real * hi == 0.0 * hi;
      }
    } else {
      var prev := WindowTally(rows[..|rows| - 1], windowType, conf);
      WindowTallyConfidence(rows[..|rows| - 1], windowType, conf, lo, hi);
      var s := rows[|rows| - 1];
      if s.windowType == windowType {
        var k := KeyOf(s);
        var c := ConfidenceOrDefault(conf, k);
        assert lo <= c as real <= hi by {
          if k in conf && conf[k] != 0 {
            assert lo <= conf[k] as real <= hi;
          }
        }
        TickWithin(prev, s.isHit, c as real, lo, hi);
      }
    }
  }

  /** With stored confidences between 0 and 100, a horizon of getStats
      reports a hit rate between 0 and 1 and a mean confidence between 0 and 100. */
  lemma StatsWindowBounds(settlements: seq<SettlementRow>, windows: seq<WindowRow>, now: int, days: int, w: WindowType)
    requires forall x :: x in windows ==> 0 <= x.window.confidence <= 100
    ensures var rep := Report(WindowTally(Since(settlements, SettledAtOf, Cutoff(now, days)), WindowKey(w), ConfidenceMap(windows)), 1.0);
      0.0 <= rep.hitRate <= 1.0 && 0 <= rep.avgConfidence <= 100 && rep.hits <= rep.total
  {
    var recent := Since(settlements, SettledAtOf, Cutoff(now, days));
    var conf := ConfidenceMap(windows);
    ConfidenceMapBounds(windows, 0, 100);
    var t := WindowTally(recent, WindowKey(w), conf);
    WindowTallyConfidence(recent, WindowKey(w), conf, 0.0, 100.0);
    assert TallyWithin(t, 0.0, 100.0);
    ReportBounds(t, 1.0, 0.0, 100.0);
  }

  /** The three horizons of getStats count each recent settlement of a known
      window type once, so their totals never exceed the recent rows. */
  lemma StatsTotals(settlements: seq<SettlementRow>, windows: seq<WindowRow>, now: int, days: int)
    ensures var recent := Since(settlements, SettledAtOf, Cutoff(now, days));
      var r := Stats(settlements, windows, now, days);
      r.h1.total + r.h4.total + r.h24.total == CountKnown(recent, false) <= |recent|
      && r.h1.hits + r.h4.hits + r.h24.hits == CountKnown(recent, true)
  {
    WindowTalliesPartition(Since(settlements, SettledAtOf, Cutoff(now, days)), ConfidenceMap(windows));
  }

  /** The stored settlements made at or after the cutoff with a known window
      type (and, when `hitsOnly`, a hit), each counted once. */
  function CountStoredSince(ss: seq<SettlementRow>, cutoff: int, hitsOnly: bool): nat {
    if ss == [] then 0
    else
      var s := ss[|ss| - 1];
      CountStoredSince(ss[..|ss| - 1], cutoff, hitsOnly)
        + (if s.settledAt >= cutoff && KnownWindow(s.windowType) && (s.isHit || !hitsOnly) then 1 else 0)
  }

  /** Counting the recent rows counts every stored settlement made at or
      after the cutoff exactly once. */
  lemma {:induction false} CountKnownSince(ss: seq<SettlementRow>, cutoff: int, hitsOnly: bool)
    ensures CountKnown(Since(ss, SettledAtOf, cutoff), hitsOnly) == CountStoredSince(ss, cutoff, hitsOnly)
  {
    if ss != [] {
      var init, s := ss[..|ss| - 1], ss[|ss| - 1];
      CountKnownSince(init, cutoff, hitsOnly);
      var rest := Since(init, SettledAtOf, cutoff);
      if s.settledAt >= cutoff {
        assert Since(ss, SettledAtOf, cutoff) == rest + [s];
        assert (rest + [s])[..|rest|] == rest;
      } else {
        assert Since(ss, SettledAtOf, cutoff) == rest;
      }
    }
  }

  /** getStats' totals and hits over the three horizons count the stored
      settlements of the period, each once. */
  lemma StatsCountStored(settlements: seq<SettlementRow>, windows: seq<WindowRow>, now: int, days: int)
    ensures var r := Stats(settlements, windows, now, days);
      && r.h1.total + r.h4.total + r.h24.total == CountStoredSince(settlements, Cutoff(now, days), false)
      && r.h1.hits + r.h4.hits + r.h24.hits == CountStoredSince(settlements, Cutoff(now, days), true)
  {
    StatsTotals(settlements, windows, now, days);
    CountKnownSince(settlements, Cutoff(now, days), false);
    CountKnownSince(settlements, Cutoff(now, days), true);
  }

  /** The per-window counters of one model. */
  datatype AITallies = AITallies(h1: Tally, h4: Tally, h24: Tally)

  const NoTallies := AITallies(NoTally, NoTally, NoTally)

  /** `aiStats[name][windowType]` updated when the window type has counters. */
  function TickWindow(ts: AITallies, a: AISettlementRow): AITallies {
    if a.windowType == WindowKey(H1) then ts.(h1 := Tick(ts.h1, a.isHit, a.confidence))
    else if a.windowType == WindowKey(H4) then ts.(h4 := Tick(ts.h4, a.isHit, a.confidence))
    else if a.windowType == WindowKey(H24) then ts.(h24 := Tick(ts.h24, a.isHit, a.confidence))
    else ts
  }

  /** The counters of the model `name` over `rows`. */
  function TalliesOf(rows: seq<AISettlementRow>, name: string): (ts: AITallies)
    ensures ts.h1.hits <= ts.h1.total && ts.h4.hits <= ts.h4.total && ts.h24.hits <= ts.h24.total
  {
    if rows == [] then NoTallies
    else
      var prev := TalliesOf(rows[..|rows| - 1], name);
      var a := rows[|rows| - 1];
      if a.aiName == name then TickWindow(prev, a) else prev
  }

  /** The counters added together, one after another. */
  function SumTallies(ts: seq<Tally>): Tally {
    if ts == [] then NoTally
    else
      var prev := SumTallies(ts[..|ts| - 1]);
      var t := ts[|ts| - 1];
      Tally(prev.total + t.total, prev.hits + t.hits, prev.confidenceSum + t.confidenceSum)
  }

  function Parts(ts: AITallies): seq<Tally> {
    [ts.h1, ts.h4, ts.h24]
  }

  /** A model's overall counters are the sums of its three windows' counters. */
  lemma SumOfParts(ts: AITallies)
    ensures SumTallies(Parts(ts)) == Tally(ts.h1.total + ts.h4.total + ts.h24.total, ts.h1.hits + ts.h4.hits + ts.h24.hits,
      ts.h1.confidenceSum + ts.h4.confidenceSum + ts.h24.confidenceSum)
  {
    var p := Parts(ts);
    assert [ts.h1][..0] == [];
    assert SumTallies([ts.h1]) == Tally(ts.h1.total, ts.h1.hits, 0.0 + ts.h1.confidenceSum);
    assert [ts.h1, ts.h4][..1] == [ts.h1];
    assert SumTallies([ts.h1, ts.h4]) == Tally(ts.h1.total + ts.h4.total, ts.h1.hits + ts.h4.hits,
      0.0 + ts.h1.confidenceSum + ts.h4.confidenceSum);
    assert p[..2] == [ts.h1, ts.h4];
  }

  datatype AIReport = AIReport(aiName: string, overall: WindowReport, h1: WindowReport, h4: WindowReport, h24: WindowReport)

  /** One model's entry of getAIStats: hit rates in percent. */
  function AIReportOf(name: string, ts: AITallies): AIReport {
    AIReport(name, Report(SumTallies(Parts(ts)), 100.0), Report(ts.h1, 100.0), Report(ts.h4, 100.0), Report(ts.h24, 100.0))
  }

  /** The model name of every row, in order. */
  function Names(rows: seq<AISettlementRow>): (r: seq<string>)
    ensures |r| == |rows|
    ensures forall i :: 0 <= i < |rows| ==> r[i] == rows[i].aiName
  {
    if rows == [] then [] else Names(rows[..|rows| - 1]) + [rows[|rows| - 1].aiName]
  }

  function ReportsOf(names: seq<string>, rows: seq<AISettlementRow>): (r: seq<AIReport>)
    ensures |r| == |names|
    ensures forall i :: 0 <= i < |names| ==> r[i] == AIReportOf(names[i], TalliesOf(rows, names[i]))
  {
    if names == [] then []
    else
      var name := names[|names| - 1];
      ReportsOf(names[..|names| - 1], rows) + [AIReportOf(name, TalliesOf(rows, name))]
  }

  /** getAIStats over the last `days` days: one entry per model, in the
      order in which the models first appear among the recent rows. */
  function AIStats(aiSettlements: seq<AISettlementRow>, now: int, days: int): seq<AIReport> {
    var recent := Since(aiSettlements, AISettledAtOf, Cutoff(now, days));
    ReportsOf(Dedup(Names(recent)), recent)
  }

  /** The rows of one model with a known window type, and of those that hit. */
  function CountModel(rows: seq<AISettlementRow>, name: string, hitsOnly: bool): (n: nat)
    ensures n <= |rows|
  {
    if rows == [] then 0
    else
      var a := rows[|rows| - 1];
      CountModel(rows[..|rows| - 1], name, hitsOnly)
        + (if a.aiName == name && KnownWindow(a.windowType) && (a.isHit || !hitsOnly) then 1 else 0)
  }

  /** A model's overall counters are the sums over its three windows: they
      count exactly its recent rows of known window type, and those that hit. */
  lemma {:induction false} TalliesCountModel(rows: seq<AISettlementRow>, name: string)
    ensures SumTallies(Parts(TalliesOf(rows, name))).total == CountModel(rows, name, false)
    ensures SumTallies(Parts(TalliesOf(rows, name))).hits == CountModel(rows, name, true)
    ensures SumTallies(Parts(TalliesOf(rows, name))).hits <= SumTallies(Parts(TalliesOf(rows, name))).total
  {
    SumOfParts(TalliesOf(rows, name));
    if rows != [] {
      TalliesCountModel(rows[..|rows| - 1], name);
      ModelStep(rows, name);
    }
  }

  /** The last row adds one to its model's overall count when its window type is known. */
  lemma ModelStep(rows: seq<AISettlementRow>, name: string)
    requires rows != []
    ensures var init, a := rows[..|rows| - 1], rows[|rows| - 1];
      && SumTallies(Parts(TalliesOf(rows, name))).total
         == SumTallies(Parts(TalliesOf(init, name))).total + (if a.aiName == name && KnownWindow(a.windowType) then 1 else 0)
      && SumTallies(Parts(TalliesOf(rows, name))).hits
         == SumTallies(Parts(TalliesOf(init, name))).hits + (if a.aiName == name && KnownWindow(a.windowType) && a.isHit then 1 else 0)
  {
    var init, a := rows[..|rows| - 1], rows[|rows| - 1];
    SumOfParts(TalliesOf(rows, name));
    SumOfParts(TalliesOf(init, name));
    WindowKeysDistinct();
  }

  /** getAIStats reports every model with a recent row exactly once, in the
      order in which the models first appear. */
  lemma AIStatsNames(aiSettlements: seq<AISettlementRow>, now: int, days: int)
    ensures var recent := Since(aiSettlements, AISettledAtOf, Cutoff(now, days));
      var r := AIStats(aiSettlements, now, days);
      && |r| == |Dedup(Names(recent))|
      && (forall i :: 0 <= i < |r| ==> r[i].aiName == Dedup(Names(recent))[i])
      && (forall name :: name in Dedup(Names(recent)) <==> name in Names(recent))
      && Distinct(Dedup(Names(recent)))
      && (forall i, j :: 0 <= i < j < |r| ==>
            FirstIndex(Names(recent), r[i].aiName) < FirstIndex(Names(recent), r[j].aiName))
  {
    var recent := Since(aiSettlements, AISettledAtOf, Cutoff(now, days));
    DedupKeepsFirstAppearanceOrder(Names(recent));
  }

  /** Each model's overall figures count exactly its recent rows of known
      window type and those that hit, with a hit rate between 0 and 100. */
  lemma AIStatsOverall(aiSettlements: seq<AISettlementRow>, now: int, days: int, i: int)
    requires 0 <= i < |AIStats(aiSettlements, now, days)|
    ensures var recent := Since(aiSettlements, AISettledAtOf, Cutoff(now, days));
      var r := AIStats(aiSettlements, now, days)[i];
      && r.overall.total == CountModel(recent, r.aiName, false)
      && r.overall.hits == CountModel(recent, r.aiName, true)
      && 0.0 <= r.overall.hitRate <= 100.0
  {
    var recent := Since(aiSettlements, AISettledAtOf, Cutoff(now, days));
    var name := Dedup(Names(recent))[i];
    var t := SumTallies(Parts(TalliesOf(recent, name)));
    TalliesCountModel(recent, name);
    HitRateBounds(t, 100.0);
  }

  // ------------------------------------------------------------ the store

  /** The five tables of the store. */
  class PredictionStore {
    var predictions: seq<PredictionRow>
    var windows: seq<WindowRow>
    var aiOutputs: seq<AIOutputRow>
    var settlements: seq<SettlementRow>
    var aiSettlements: seq<AISettlementRow>

    /** Prediction ids are primary keys, and the settlement tables are sound. */
    ghost predicate Valid()
      reads this
    {
      UniqueIds(predictions) && Sound(Ledger(settlements, aiSettlements))
    }

    constructor()
      ensures Valid()
      ensures predictions == [] && windows == [] && aiOutputs == []
      ensures settlements == [] && aiSettlements == []
    {
      predictions, windows, aiOutputs := [], [], [];
      settlements, aiSettlements := [], [];
    }

    predicate HasPrediction(id: string)
      reads this
    {
      exists p :: p in predictions && p.id == id
    }

    /** createHourlyPrediction for the hour `id`, at `now`: nothing happens
        when the hour already has a prediction; a halted market gets an empty
        prediction; otherwise the models' answers are aggregated and stored,
        unless no model call succeeded, which raises and stores nothing. */
    method CreateHourlyPrediction(id: string, now: int, btcPrice: real, health: Health,
                                  results: seq<AIResult>, sqrt: real -> real) returns (status: CreateStatus)
      requires Valid()
      requires IsSqrt(sqrt) && ParsedResults(results)
      modifies this
      ensures Valid()
      ensures status == Exists <==> old(HasPrediction(id))
      ensures status != AllModelsFailed ==> HasPrediction(id)
      ensures status == Exists || status == AllModelsFailed ==> unchanged(this)
      ensures settlements == old(settlements) && aiSettlements == old(aiSettlements)
      ensures !old(HasPrediction(id)) && health.grade == Halted ==>
        && status == HaltedStatus(health.reason)
        && predictions == old(predictions) + [PredictionRow(id, now, 0.0, health, 0, [])]
        && windows == old(windows) && aiOutputs == old(aiOutputs)
      ensures !old(HasPrediction(id)) && health.grade != Halted ==>
        (status == AllModelsFailed <==> SuccessCount(results) == 0)
      ensures status.Created? ==>
        && status.successCount == SuccessCount(results)
        && predictions == old(predictions)
             + [PredictionRow(id, now, btcPrice, health, Strength(results, sqrt), DivergenceSummary(results))]
        && windows == old(windows) + ConsensusRows(id, results)
        && aiOutputs == old(aiOutputs) + OutputRows(id, results)
    {
      if exists p :: p in predictions && p.id == id {
        return Exists;
      }
      if health.grade == Halted {
        predictions := predictions + [PredictionRow(id, now, 0.0, health, 0, [])];
        assert predictions[|predictions| - 1].id == id;
        return HaltedStatus(health.reason);
      }
      var successCount := SuccessCount(results);
      if successCount == 0 {
        return AllModelsFailed;
      }
      var aggregated := AggregatePredictions(results, sqrt);
      SavePrediction(id, now, btcPrice, health, aggregated, results);
      status := Created(successCount);
    }

    /** savePrediction: the prediction row, its three horizons and three rows
        per model whose answer parsed. */
    method SavePrediction(id: string, now: int, btcPrice: real, health: Health,
                          aggregated: AggregatedPrediction, results: seq<AIResult>)
      requires Valid() && !HasPrediction(id)
      modifies this
      ensures Valid() && HasPrediction(id)
      ensures predictions == old(predictions)
        + [PredictionRow(id, now, btcPrice, health, aggregated.consensusStrength, aggregated.divergenceSummary)]
      ensures windows == old(windows)
        + [WindowRow(id, WindowKey(H1), aggregated.h1), WindowRow(id, WindowKey(H4), aggregated.h4),
           WindowRow(id, WindowKey(H24), aggregated.h24)]
      ensures aiOutputs == old(aiOutputs) + OutputRows(id, results)
      ensures settlements == old(settlements) && aiSettlements == old(aiSettlements)
    {
      predictions := predictions + [PredictionRow(id, now, btcPrice, health, aggregated.consensusStrength, aggregated.divergenceSummary)];
      assert predictions[|predictions| - 1].id == id;
      SaveWindows(id, aggregated);
      SaveOutputs(id, results);
    }

    /** The loop over the three horizons of savePrediction. */
    method SaveWindows(id: string, aggregated: AggregatedPrediction)
      modifies this
      ensures windows == old(windows)
        + [WindowRow(id, WindowKey(H1), aggregated.h1), WindowRow(id, WindowKey(H4), aggregated.h4),
           WindowRow(id, WindowKey(H24), aggregated.h24)]
      ensures predictions == old(predictions) && aiOutputs == old(aiOutputs)
      ensures settlements == old(settlements) && aiSettlements == old(aiSettlements)
    {
      for i := 0 to |AllWindows|
        invariant windows == old(windows) + seq(i, j requires 0 <= j < i => WindowRow(id, WindowKey(AllWindows[j]), aggregated.Window(AllWindows[j])))
        invariant predictions == old(predictions) && aiOutputs == old(aiOutputs)
        invariant settlements == old(settlements) && aiSettlements == old(aiSettlements)
      {
        var w := AllWindows[i];
        windows := windows + [WindowRow(id, WindowKey(w), aggregated.Window(w))];
      }
    }

    /** The loop over the models' answers of savePrediction. */
    method SaveOutputs(id: string, results: seq<AIResult>)
      modifies this
      ensures aiOutputs == old(aiOutputs) + OutputRows(id, results)
      ensures predictions == old(predictions) && windows == old(windows)
      ensures settlements == old(settlements) && aiSettlements == old(aiSettlements)
    {
      assert results[..0] == [];
      for i := 0 to |results|
        invariant aiOutputs == old(aiOutputs) + OutputRows(id, results[..i])
        invariant predictions == old(predictions) && windows == old(windows)
        invariant settlements == old(settlements) && aiSettlements == old(aiSettlements)
      {
        OutputRowsStep(id, results, i);
        var r := results[i];
        if r.success && r.data.Some? {
          SaveModelOutputs(id, r);
        }
      }
      assert results[..|results|] == results;
    }

    /** The three rows of one model whose answer parsed. */
    method SaveModelOutputs(id: string, r: AIResult)
      requires Usable(r)
      modifies this
      ensures aiOutputs == old(aiOutputs) + [OutputRow(id, r, H1), OutputRow(id, r, H4), OutputRow(id, r, H24)]
      ensures predictions == old(predictions) && windows == old(windows)
      ensures settlements == old(settlements) && aiSettlements == old(aiSettlements)
    {
      for j := 0 to |AllWindows|
        invariant aiOutputs == old(aiOutputs) + seq(j, k requires 0 <= k < j => OutputRow(id, r, AllWindows[k]))
        invariant predictions == old(predictions) && windows == old(windows)
        invariant settlements == old(settlements) && aiSettlements == old(aiSettlements)
      {
        aiOutputs := aiOutputs + [OutputRow(id, r, AllWindows[j])];
      }
    }

    /** One horizon of settleExpiredWindows. */
    method SettleWindowOf(p: PredictionRow, w: WindowRow, now: int, priceAt: int -> Option<real>)
      modifies this
      ensures Ledger(settlements, aiSettlements) == SettleWindow(old(Ledger(settlements, aiSettlements)), p, w, aiOutputs, now, priceAt)
      ensures predictions == old(predictions) && windows == old(windows) && aiOutputs == old(aiOutputs)
    {
      var k := Key(p.id, w.windowType);
      if exists s :: s in settlements && KeyOf(s) == k {
        return;
      }
      var endTime := EndTime(p.createdAt, w.windowType);
      if now <= endTime {
        return;
      }
      var lookup := priceAt(endTime);
      if lookup.None? {
        return;
      }
      var startPrice, endPrice := p.btcPrice, lookup.value;
      if startPrice == 0.0 {
        return;
      }
      var returnPct := ReturnPct(startPrice, endPrice);
      var actual := ActualDirection(returnPct);
      var predicted := PredictedDirection(w.window.probUp, w.window.probDown);
      var s := SettlementRow(p.id, w.windowType, returnPct, actual, predicted, actual == predicted, now, startPrice, endPrice);
      settlements := settlements + [s];
      assert s == SettlementFor(p, w, endPrice, now);
      SettleModels(s, OutputsFor(aiOutputs, k));
    }

    /** The loop over a settled horizon's model outputs: each model not yet
        settled for the horizon gets its row. */
    method SettleModels(s: SettlementRow, outs: seq<AIOutputRow>)
      modifies this
      ensures aiSettlements == SettleOutputs(old(aiSettlements), s, outs)
      ensures predictions == old(predictions) && windows == old(windows) && aiOutputs == old(aiOutputs)
      ensures settlements == old(settlements)
    {
      for m := 0 to |outs|
        invariant aiSettlements == SettleOutputs(old(aiSettlements), s, outs[..m])
        invariant predictions == old(predictions) && windows == old(windows) && aiOutputs == old(aiOutputs)
        invariant settlements == old(settlements)
      {
        var o := outs[m];
        if !(exists a :: a in aiSettlements && AIKeyOf(a) == AIKey(s.predictionId, s.windowType, o.aiName)) {
          var aiPredicted := PredictedDirection(o.probUp, o.probDown);
          aiSettlements := aiSettlements + [AISettlementRow(s.predictionId, o.aiName, s.windowType, aiPredicted,
            s.actualDirection, o.confidence, s.actualDirection == aiPredicted, s.settledAt)];
        }
        assert outs[..m + 1][..m] == outs[..m];
      }
      assert outs[..|outs|] == outs;
    }

    /** settleExpiredWindows at `now`, looking historical prices up with `priceAt`. */
    method SettleExpiredWindows(now: int, priceAt: int -> Option<real>)
      requires Valid()
      modifies this
      ensures Valid()
      ensures Ledger(settlements, aiSettlements)
        == SettlePredictions(old(Ledger(settlements, aiSettlements)), predictions, windows, aiOutputs, now, priceAt)
      ensures predictions == old(predictions) && windows == old(windows) && aiOutputs == old(aiOutputs)
    {
      var all := predictions;
      ghost var start := Ledger(settlements, aiSettlements);
      for i := 0 to |all|
        invariant predictions == all && windows == old(windows) && aiOutputs == old(aiOutputs)
        invariant Ledger(settlements, aiSettlements) == SettlePredictions(start, all[..i], windows, aiOutputs, now, priceAt)
      {
        var p := all[i];
        var ws := WindowsFor(windows, p.id);
        ghost var before := Ledger(settlements, aiSettlements);
        for j := 0 to |ws|
          invariant predictions == all && windows == old(windows) && aiOutputs == old(aiOutputs)
          invariant Ledger(settlements, aiSettlements) == SettleWindows(before, p, ws[..j], aiOutputs, now, priceAt)
        {
          SettleWindowOf(p, ws[j], now, priceAt);
          assert ws[..j + 1][..j] == ws[..j];
        }
        assert ws[..|ws|] == ws;
        assert all[..i + 1][..i] == all[..i];
      }
      assert all[..|all|] == all;
      SettlePredictionsAdvances(start, all, windows, aiOutputs, now, priceAt);
    }

    /** getStats over the last `days` days before `now`. */
    method GetStats(now: int, days: int) returns (r: StatsReport)
      ensures r == Stats(settlements, windows, now, days)
    {
      var cutoff := now - days * DayMs;
      var recent := Since(settlements, SettledAtOf, cutoff);
      assert cutoff == Cutoff(now, days);
      var conf := BuildConfidenceMap(windows);
      var t1, t4, t24 := TallyWindows(recent, conf);
      r := StatsReport(Report(t1, 1.0), Report(t4, 1.0), Report(t24, 1.0), |recent| as real / 3.0);
    }

    /** getAIStats over the last `days` days before `now`. */
    method GetAIStats(now: int, days: int) returns (r: seq<AIReport>)
      ensures r == AIStats(aiSettlements, now, days)
    {
      var cutoff := now - days * DayMs;
      var recent := Since(aiSettlements, AISettledAtOf, cutoff);
      assert cutoff == Cutoff(now, days);
      var names, tallies := CountByModel(recent);
      r := BuildReports(names, tallies, recent);
    }
  }

  /** The second loop of getAIStats: one report per model, in the order of `names`. */
  method BuildReports(names: seq<string>, tallies: map<string, AITallies>, recent: seq<AISettlementRow>)
    returns (r: seq<AIReport>)
    requires forall n :: n in names ==> n in tallies && tallies[n] == TalliesOf(recent, n)
    ensures r == ReportsOf(names, recent)
  {
    r := [];
    for k := 0 to |names|
      invariant r == ReportsOf(names[..k], recent)
    {
      var name := names[k];
      var ts := tallies[name];
      var overall := Overall(ts);
      r := r + [AIReport(name, Report(overall, 100.0), Report(ts.h1, 100.0), Report(ts.h4, 100.0), Report(ts.h24, 100.0))];
      assert names[..k + 1][..k] == names[..k];
    }
    assert names[..|names|] == names;
  }

  /** The confidence-map loop of getStats. */
  method BuildConfidenceMap(windows: seq<WindowRow>) returns (conf: map<Key, int>)
    ensures conf == ConfidenceMap(windows)
  {
    conf := map[];
    for i := 0 to |windows|
      invariant conf == ConfidenceMap(windows[..i])
    {
      var w := windows[i];
      conf := conf[Key(w.predictionId, w.windowType) := w.window.confidence];
      assert windows[..i + 1][..i] == windows[..i];
    }
    assert windows[..|windows|] == windows;
  }

  /** The counting loop of getStats: one counter per known window type. */
  method TallyWindows(recent: seq<SettlementRow>, conf: map<Key, int>) returns (t1: Tally, t4: Tally, t24: Tally)
    ensures t1 == WindowTally(recent, WindowKey(H1), conf)
    ensures t4 == WindowTally(recent, WindowKey(H4), conf)
    ensures t24 == WindowTally(recent, WindowKey(H24), conf)
  {
    t1, t4, t24 := NoTally, NoTally, NoTally;
    for i := 0 to |recent|
      invariant t1 == WindowTally(recent[..i], WindowKey(H1), conf)
      invariant t4 == WindowTally(recent[..i], WindowKey(H4), conf)
      invariant t24 == WindowTally(recent[..i], WindowKey(H24), conf)
    {
      var s := recent[i];
      var c := ConfidenceOrDefault(conf, KeyOf(s)) as real;
      assert recent[..i + 1][..i] == recent[..i];
      if s.windowType == WindowKey(H1) {
        t1 := Tick(t1, s.isHit, c);
      } else if s.windowType == WindowKey(H4) {
        t4 := Tick(t4, s.isHit, c);
      } else if s.windowType == WindowKey(H24) {
        t24 := Tick(t24, s.isHit, c);
      }
    }
    assert recent[..|recent|] == recent;
  }

  /** The first loop of getAIStats: a counter record per model, created when
      the model is first met, then bumped for the row's window type. */
  method CountByModel(recent: seq<AISettlementRow>) returns (names: seq<string>, tallies: map<string, AITallies>)
    ensures names == Dedup(Names(recent))
    ensures forall n :: n in tallies <==> n in names
    ensures forall n :: n in tallies ==> tallies[n] == TalliesOf(recent, n)
  {
    names, tallies := [], map[];
    for i := 0 to |recent|
      invariant names == Dedup(Names(recent[..i]))
      invariant forall n :: n in tallies <==> n in names
      invariant forall n :: n in tallies ==> tallies[n] == TalliesOf(recent[..i], n)
    {
      names, tallies := CountRow(recent, i, names, tallies);
    }
    assert recent[..|recent|] == recent;
  }

  /** One pass of the first loop of getAIStats: the row `recent[i]` creates
      its model's counters if needed and bumps its window type. */
  method CountRow(recent: seq<AISettlementRow>, i: int, names: seq<string>, tallies: map<string, AITallies>)
    returns (names': seq<string>, tallies': map<string, AITallies>)
    requires 0 <= i < |recent|
    requires names == Dedup(Names(recent[..i]))
    requires forall n :: n in tallies <==> n in names
    requires forall n :: n in tallies ==> tallies[n] == TalliesOf(recent[..i], n)
    ensures names' == Dedup(Names(recent[..i + 1]))
    ensures forall n :: n in tallies' <==> n in names'
    ensures forall n :: n in tallies' ==> tallies'[n] == TalliesOf(recent[..i + 1], n)
  {
    var s := recent[i];
    CountStep(recent, i);
    names', tallies' := names, tallies;
    if s.aiName !in tallies {
      TalliesOfAbsent(recent[..i], s.aiName);
      names' := names + [s.aiName];
      tallies' := tallies[s.aiName := NoTallies];
    }
    tallies' := tallies'[s.aiName := TickWindow(tallies'[s.aiName], s)];
  }

  /** The loop that sums a model's three windows into its overall counters. */
  method Overall(ts: AITallies) returns (overall: Tally)
    ensures overall == SumTallies(Parts(ts))
  {
    var totalAll: nat, hitsAll: nat, confAll := 0, 0, 0.0;
    var parts := Parts(ts);
    for j := 0 to |parts|
      invariant Tally(totalAll, hitsAll, confAll) == SumTallies(parts[..j])
    {
      totalAll, hitsAll, confAll := totalAll + parts[j].total, hitsAll + parts[j].hits, confAll + parts[j].confidenceSum;
      assert parts[..j + 1][..j] == parts[..j];
    }
    assert parts[..|parts|] == parts;
    overall := Tally(totalAll, hitsAll, confAll);
  }

  lemma CountStep(recent: seq<AISettlementRow>, i: int)
    requires 0 <= i < |recent|
    ensures var before, s := Dedup(Names(recent[..i])), recent[i];
      Dedup(Names(recent[..i + 1])) == if s.aiName in before then before else before + [s.aiName]
    ensures (forall n :: TalliesOf(recent[..i + 1], n)
               == if n == recent[i].aiName then TickWindow(TalliesOf(recent[..i], n), recent[i]) else TalliesOf(recent[..i], n))
  {
    assert recent[..i + 1][..i] == recent[..i];
    var ns := Names(recent[..i + 1]);
    assert ns[..|ns| - 1] == Names(recent[..i]);
  }

  /** A model without rows has empty counters. */
  lemma {:induction false} TalliesOfAbsent(rows: seq<AISettlementRow>, name: string)
    requires name !in Names(rows)
    ensures TalliesOf(rows, name) == NoTallies
  {
    if rows != [] {
      var ns := Names(rows);
      assert ns[..|ns| - 1] == Names(rows[..|rows| - 1]);
      assert ns[|ns| - 1] == rows[|rows| - 1].aiName;
      TalliesOfAbsent(rows[..|rows| - 1], name);
    }
  }
}
