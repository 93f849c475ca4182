/** The estimator of an order's place in the book that sits behind the order controller. */
module OrderQueue {
  import opened Numeric
  import opened Domain

  const ALPHA_FAST: real := 0.22
  const ALPHA_SLOW: real := 0.10
  const TINY: real := 0.000000001

  datatype QueueState = QueueState(
    volumeAhead: real, positionRatio: real, expectedFillTimeMs: real, fillProbability: real, decayRate: real,
    competition: CompetitionState, bestBid: real, bestAsk: real, lastReferencePrice: real)

  datatype Engine = Engine(
    state: QueueState, cancelRate: real, tradeThroughRate: real, lastVolumeAhead: real, lastVisibleVolume: real,
    lastTs: nat)

  /** This file's average takes the first non-zero sample whole. */
  function Ewma(current: real, sample: real, alpha: real): real {
    if current == 0.0 then sample else current * (1.0 - alpha) + sample * alpha
  }

  function FillTime(volumeAhead: real, orderQty: real, fillProbability: real, decayRate: real): real {
    var decay := MaxR(MaxR(decayRate, orderQty * 0.001), 0.000001);
    Clamp(volumeAhead / decay / MaxR(fillProbability, 0.05), 10.0, 2000.0)
  }

  function Elapsed(now: nat, last: nat): (ms: real)
    ensures ms >= 1.0
  {
    if SatSub(now, last) < 1 then 1.0 else SatSub(now, last) as real
  }

  function New(volumeAhead: real, fillProbability: real, orderQty: real, expectedDurationMs: nat): Engine {
    var ahead := MaxR(volumeAhead, orderQty);
    var ratio := if ahead > 0.0 then volumeAhead / MaxR(ahead, TINY) else 1.0;
    Engine(
      QueueState(ahead, ratio, expectedDurationMs as real / MaxR(fillProbability, 0.05),
                 Clamp(fillProbability, 0.0, 1.0),
                 0.0, Normal, 0.0, 0.0, 0.0),
      0.0, 0.0, ahead, ahead, 0)
  }

  function CancelRate(e: Engine, visible: real): real {
    Ewma(e.cancelRate, MaxR(Clamp((e.lastVisibleVolume - visible) / MaxR(e.lastVisibleVolume, TINY), -1.0, 1.0), 0.0),
         ALPHA_SLOW)
  }

  function BookAhead(e: Engine, visible: real, orderQty: real, outbid: bool): real {
    if outbid then MaxR(visible + orderQty, e.state.volumeAhead) else visible
  }

  function BookProbability(ratio: real, decay: real, cancel: real, tradeThrough: real, orderQty: real, outbid: bool,
                           spreadBps: real): real {
    var boosts := Clamp(MaxR(decay, 0.0) / MaxR(orderQty, TINY) * 50.0, 0.0, 0.20)
                  + Clamp(cancel, 0.0, 0.18) + Clamp(tradeThrough, 0.0, 0.20);
    Clamp(0.55 + boosts - MaxR(ratio - 1.0, 0.0) * 0.28 - Clamp(spreadBps / 12.0, 0.0, 0.45)
          - (if outbid then 0.14 else 0.0), 0.0, 1.0)
  }

  function AfterBook(e: Engine, visibleVolume: real, orderQty: real, outbid: bool, spreadBps: real, now: nat): Engine {
    var visible := MaxR(visibleVolume, orderQty);
    var cancel := CancelRate(e, visible);
    var ahead := BookAhead(e, visible, orderQty, outbid);
    var decay := Ewma(e.state.decayRate, Clamp((e.lastVolumeAhead - ahead) / Elapsed(now, e.lastTs), -10000.0,
                                               10000.0), ALPHA_FAST);
    var volume := MaxR(ahead, orderQty);
    var ratio := Clamp(volume / MaxR(visible, TINY), 0.0, 8.0);
    var probability := BookProbability(ratio, decay, cancel, e.tradeThroughRate, orderQty, outbid, spreadBps);
    Engine(
      e.state.(volumeAhead := volume, positionRatio := ratio, fillProbability := probability, decayRate := decay,
      expectedFillTimeMs := FillTime(volume, orderQty, probability, decay)),
      cancel, e.tradeThroughRate, volume, visible, now)
  }

  function TradeImpulse(e: Engine, traded: real, orderQty: real): real {
    Clamp(traded / MaxR(MaxR(e.state.volumeAhead, orderQty), TINY), 0.0, 1.0)
  }

  function AfterTrade(e: Engine, traded: real, orderQty: real, now: nat): Engine {
    var impulse := TradeImpulse(e, traded, orderQty);
    var consumed := MinR(traded, e.state.volumeAhead);
    var volume := MaxR(e.state.volumeAhead - consumed, orderQty);
    var decay := Ewma(e.state.decayRate, consumed / Elapsed(now, e.lastTs), ALPHA_FAST);
    var probability := Clamp(e.state.fillProbability + impulse * 0.18, 0.0, 1.0);
    Engine(
      e.state.(volumeAhead := volume, positionRatio := Clamp(volume / MaxR(MaxR(e.lastVisibleVolume, orderQty), TINY),
                                                             0.0, 8.0),
      fillProbability := probability, decayRate := decay,
      expectedFillTimeMs := FillTime(volume, orderQty, probability, decay)),
      e.cancelRate, Ewma(e.tradeThroughRate, impulse, ALPHA_FAST), volume, e.lastVisibleVolume, now)
  }

  /** What every engine state keeps: probabilities and rates in range, and a book it never fills in. */
  ghost predicate Sound(e: Engine) {
    && 0.0 <= e.state.fillProbability <= 1.0 && 0.0 <= e.cancelRate <= 1.0 && 0.0 <= e.tradeThroughRate <= 1.0
    && e.state.competition == Normal
    && e.state.bestBid == e.state.bestAsk == e.state.lastReferencePrice == 0.0
  }

  lemma EwmaUnit(current: real, sample: real)
    requires 0.0 <= current <= 1.0 && 0.0 <= sample <= 1.0
    ensures 0.0 <= Ewma(current, sample, ALPHA_FAST) <= 1.0 && 0.0 <= Ewma(current, sample, ALPHA_SLOW) <= 1.0
  {
  }

  lemma BookSound(e: Engine, visible: real, orderQty: real, outbid: bool, spreadBps: real, now: nat)
    requires Sound(e)
    ensures var e' := AfterBook(e, visible, orderQty, outbid, spreadBps, now);
            && Sound(e') && e'.state.volumeAhead >= orderQty && 0.0 <= e'.state.positionRatio <= 8.0
            && 10.0 <= e'.state.expectedFillTimeMs <= 2000.0
  {
    hide Ewma, BookAhead, Elapsed;
    var ratio := MaxR(Clamp((e.lastVisibleVolume - MaxR(visible, orderQty)) / MaxR(e.lastVisibleVolume, TINY), -1.0,
                            1.0), 0.0);
    EwmaUnit(e.cancelRate, ratio);
  }

  lemma TradeSound(e: Engine, traded: real, orderQty: real, now: nat)
    requires Sound(e)
    ensures var e' := AfterTrade(e, traded, orderQty, now);
            && Sound(e') && e'.state.volumeAhead >= orderQty && 0.0 <= e'.state.positionRatio <= 8.0
            && 10.0 <= e'.state.expectedFillTimeMs <= 2000.0
  {
    hide Ewma, Elapsed;
    EwmaUnit(e.tradeThroughRate, TradeImpulse(e, traded, orderQty));
  }

  lemma NewSound(volumeAhead: real, fillProbability: real, orderQty: real, expectedDurationMs: nat)
    ensures Sound(New(volumeAhead, fillProbability, orderQty, expectedDurationMs))
  {
  }

  class QueueEngine {
    var state: QueueState
    var cancelRate: real
    var tradeThroughRate: real
    var lastVolumeAhead: real
    var lastVisibleVolume: real
    var lastTs: nat

    function Now(): Engine
      reads this
    {
      Engine(state, cancelRate, tradeThroughRate, lastVolumeAhead, lastVisibleVolume, lastTs)
    }

    constructor (volumeAhead: real, fillProbability: real, orderQty: real, expectedDurationMs: nat)
      ensures Now() == New(volumeAhead, fillProbability, orderQty, expectedDurationMs)
    {
      var e := New(volumeAhead, fillProbability, orderQty, expectedDurationMs);
      state, cancelRate, tradeThroughRate := e.state, 0.0, 0.0;
      lastVolumeAhead, lastVisibleVolume, lastTs := e.lastVolumeAhead, e.lastVisibleVolume, 0;
    }

    /** The field-by-field update of a book observation; the copy it returns still has no prices in it. */
    method ObserveBook(visibleVolume: real, orderQty: real, outbid: bool, spreadBps: real, now: nat)
      returns (copy: QueueState)
      modifies this
      ensures Now() == AfterBook(old(Now()), visibleVolume, orderQty, outbid, spreadBps, now)
      ensures copy == state
    {
      hide Ewma, Elapsed, BookProbability, FillTime, Clamp, MaxR;
      ghost var before := Now();
      var elapsed := Elapsed(now, lastTs);
      var visible := MaxR(visibleVolume, orderQty);
      var delta := lastVisibleVolume - visible;
      BaseNonZero(lastVisibleVolume);
      BaseNonZero(visible);
      var impulse := Clamp(delta / MaxR(lastVisibleVolume, TINY), -1.0, 1.0);
      cancelRate := Ewma(cancelRate, MaxR(impulse, 0.0), ALPHA_SLOW);
      var ahead := visible;
      if outbid {
        ahead := MaxR(visible + orderQty, state.volumeAhead);
      }
      var decay := Clamp((lastVolumeAhead - ahead) / elapsed, -10000.0, 10000.0);
      state := state.(decayRate := Ewma(state.decayRate, decay, ALPHA_FAST));
      state := state.(volumeAhead := MaxR(ahead, orderQty));
      state := state.(positionRatio := Clamp(state.volumeAhead / MaxR(visible, TINY), 0.0, 8.0));
      state := state.(fillProbability := BookProbability(
        state.positionRatio, state.decayRate, cancelRate, tradeThroughRate, orderQty, outbid, spreadBps));
      state := state.(expectedFillTimeMs := FillTime(state.volumeAhead, orderQty, state.fillProbability,
                                                     state.decayRate));
      lastTs := now;
      lastVisibleVolume := visible;
      lastVolumeAhead := state.volumeAhead;
      copy := state;
    }

    method ObserveTrade(traded: real, orderQty: real, now: nat) returns (copy: QueueState)
      modifies this
      ensures Now() == AfterTrade(old(Now()), traded, orderQty, now)
      ensures copy == state
    {
      hide Ewma, Elapsed, FillTime, TradeImpulse, Clamp;
      var elapsed := Elapsed(now, lastTs);
      var impulse := TradeImpulse(Now(), traded, orderQty);
      tradeThroughRate := Ewma(tradeThroughRate, impulse, ALPHA_FAST);
      var consumed := MinR(traded, state.volumeAhead);
      state := state.(volumeAhead := MaxR(state.volumeAhead - consumed, orderQty));
      state := state.(decayRate := Ewma(state.decayRate, consumed / elapsed, ALPHA_FAST));
      state := state.(positionRatio := Clamp(state.volumeAhead / MaxR(MaxR(lastVisibleVolume, orderQty), TINY), 0.0,
                                             8.0));
      state := state.(fillProbability := Clamp(state.fillProbability + impulse * 0.18, 0.0, 1.0));
      state := state.(expectedFillTimeMs := FillTime(state.volumeAhead, orderQty, state.fillProbability,
                                                     state.decayRate));
      lastTs := now;
      lastVolumeAhead := state.volumeAhead;
      copy := state;
    }
  }

  lemma BaseNonZero(v: real)
    ensures MaxR(v, TINY) > 0.0
  {
  }
}
