/** What the generated program promises: end time, ledger timing and contents, pairing, point counts and order. */
module PreprocessProperties {
  import opened Pwl
  import opened Bits
  import opened Sequencer
  import opened Preprocess

  /** Each source keeps its name, node and slew, and gains `added` points. */
  predicate Grown(s: Source, s0: Source, added: nat) {
    && s.name == s0.name && s.drive == s0.drive && s.tTr == s0.tTr
    && |s.pts| == |s0.pts| + added
    && s.pts[..|s0.pts|] == s0.pts
  }

  /** Data sources gain `data` points, the other driven sources `other`; the rest are untouched. */
  predicate GrownAll(cfg: Config, r: State, st: State, data: nat, other: nat)
    requires Shaped(cfg, r) && Shaped(cfg, st)
  {
    && (forall k :: 0 <= k < cfg.wordSize ==> Grown(r.din[k], st.din[k], data))
    && (forall k :: 0 <= k < cfg.addrSize ==> Grown(r.addr[k], st.addr[k], other))
    && Grown(r.web, st.web, other) && Grown(r.clk, st.clk, other)
    && r.csb == st.csb && r.vddSrc == st.vddSrc
  }

  lemma GrownTrans1(s: Source, m: Source, s0: Source, a: nat, b: nat)
    requires Grown(m, s0, a) && Grown(s, m, b)
    ensures Grown(s, s0, a + b)
  {
    assert s.pts[..|s0.pts|] == s.pts[..|m.pts|][..|s0.pts|];
  }

  lemma GrownTrans(cfg: Config, r: State, m: State, st: State, d1: nat, o1: nat, d2: nat, o2: nat)
    requires Shaped(cfg, r) && Shaped(cfg, m) && Shaped(cfg, st)
    requires GrownAll(cfg, m, st, d1, o1) && GrownAll(cfg, r, m, d2, o2)
    ensures GrownAll(cfg, r, st, d1 + d2, o1 + o2)
  {
    forall k | 0 <= k < cfg.wordSize ensures Grown(r.din[k], st.din[k], d1 + d2) {
      GrownTrans1(r.din[k], m.din[k], st.din[k], d1, d2);
    }
    forall k | 0 <= k < cfg.addrSize ensures Grown(r.addr[k], st.addr[k], o1 + o2) {
      GrownTrans1(r.addr[k], m.addr[k], st.addr[k], o1, o2);
    }
    GrownTrans1(r.web, m.web, st.web, o1, o2);
    GrownTrans1(r.clk, m.clk, st.clk, o1, o2);
  }

  lemma WriteGrows(cfg: Config, st: State, addr: nat, value: nat)
    requires Shaped(cfg, st)
    ensures GrownAll(cfg, Write(cfg, st, addr, value), st, 4, 4)
  {
  }

  lemma CheckGrows(cfg: Config, st: State, addr: nat, value: nat)
    requires Shaped(cfg, st)
    ensures GrownAll(cfg, Check(cfg, st, addr, value), st, 0, 4)
  {
  }

  /** `n` clock periods, added one at a time as the operations advance the cursor. */
  function Periods(n: nat, c: real): (r: real)
  {
    if n == 0 then 0.0 else Periods(n - 1, c) + c
  }

  lemma {:induction false} PeriodsProduct(n: nat, c: real)
    ensures Periods(n, c) == (n as real) * c
  {
    if n > 0 {
      PeriodsProduct(n - 1, c);
    }
  }

  /** A run of writes takes one period each and leaves the ledger alone. */
  lemma {:induction false} WriteAllTime(cfg: Config, st: State, ops: seq<(nat, nat)>)
    requires Shaped(cfg, st)
    ensures WriteAll(cfg, st, ops).time.t == st.time.t + Periods(|ops|, cfg.clkPer)
    ensures WriteAll(cfg, st, ops).expct == st.expct
    decreases |ops|
  {
    if |ops| > 0 {
      var ops' := ops[..|ops| - 1];
      var m := WriteAll(cfg, st, ops');
      WriteAllTime(cfg, st, ops');
      assert WriteAll(cfg, st, ops).time.t == m.time.t + cfg.clkPer;
    }
  }

  /** A run of writes adds four points per write to every data, address, `web0` and clock source. */
  lemma {:induction false} WriteAllGrows(cfg: Config, st: State, ops: seq<(nat, nat)>)
    requires Shaped(cfg, st)
    ensures GrownAll(cfg, WriteAll(cfg, st, ops), st, 4 * |ops|, 4 * |ops|)
    decreases |ops|
  {
    if |ops| > 0 {
      var ops' := ops[..|ops| - 1];
      var m := WriteAll(cfg, st, ops');
      WriteAllGrows(cfg, st, ops');
      WriteGrows(cfg, m, ops[|ops| - 1].0, ops[|ops| - 1].1);
      GrownTrans(cfg, WriteAll(cfg, st, ops), m, st, 4 * |ops'|, 4 * |ops'|, 4, 4);
    }
  }

  /** A run of writes from a well-timed state ends in one. */
  lemma {:induction false} WriteAllWellTimed(cfg: Config, st: State, ops: seq<(nat, nat)>)
    requires WellTimed(cfg, st)
    ensures WellTimed(cfg, WriteAll(cfg, st, ops))
    decreases |ops|
  {
    if |ops| > 0 {
      var ops' := ops[..|ops| - 1];
      WriteAllWellTimed(cfg, st, ops');
      WriteWellTimed(cfg, WriteAll(cfg, st, ops'), ops[|ops| - 1].0, ops[|ops| - 1].1);
    }
  }

  /** A run of checks takes one period each and leaves the data lines alone. */
  lemma {:induction false} CheckAllTime(cfg: Config, st: State, ops: seq<(nat, nat)>)
    requires Shaped(cfg, st)
    ensures CheckAll(cfg, st, ops).time.t == st.time.t + Periods(|ops|, cfg.clkPer)
    ensures CheckAll(cfg, st, ops).din == st.din
    decreases |ops|
  {
    if |ops| > 0 {
      var ops' := ops[..|ops| - 1];
      var m := CheckAll(cfg, st, ops');
      CheckAllTime(cfg, st, ops');
      assert CheckAll(cfg, st, ops).time.t == m.time.t + cfg.clkPer;
    }
  }

  /** A run of checks adds four points per check to every address, `web0` and clock source. */
  lemma {:induction false} CheckAllGrows(cfg: Config, st: State, ops: seq<(nat, nat)>)
    requires Shaped(cfg, st)
    ensures GrownAll(cfg, CheckAll(cfg, st, ops), st, 0, 4 * |ops|)
    decreases |ops|
  {
    if |ops| > 0 {
      var ops' := ops[..|ops| - 1];
      var m := CheckAll(cfg, st, ops');
      CheckAllGrows(cfg, st, ops');
      CheckGrows(cfg, m, ops[|ops| - 1].0, ops[|ops| - 1].1);
      GrownTrans(cfg, CheckAll(cfg, st, ops), m, st, 0, 4 * |ops'|, 0, 4);
    }
  }

  /** A run of checks from a well-timed state ends in one. */
  lemma {:induction false} CheckAllWellTimed(cfg: Config, st: State, ops: seq<(nat, nat)>)
    requires WellTimed(cfg, st)
    ensures WellTimed(cfg, CheckAll(cfg, st, ops))
    decreases |ops|
  {
    if |ops| > 0 {
      var ops' := ops[..|ops| - 1];
      CheckAllWellTimed(cfg, st, ops');
      CheckWellTimed(cfg, CheckAll(cfg, st, ops'), ops[|ops| - 1].0, ops[|ops| - 1].1);
    }
  }

  /** When check `i` of a run starting at `t0` samples: after its own period ends. */
  function SampleTime(t0: real, i: nat, c: real): (r: real) {
    t0 + Periods(i + 1, c)
  }

  /** The ledger a run of checks starting at `t0` leaves after the entries of `base`. */
  predicate LedgerOf(cfg: Config, ledger: seq<Entry>, base: seq<Entry>, t0: real, ops: seq<(nat, nat)>) {
    && |ledger| == |base| + |ops|
    && ledger[..|base|] == base
    && (forall i :: 0 <= i < |ops| ==>
          ledger[|base| + i]
          == Entry(SampleTime(t0, i, cfg.clkPer), Levels(cfg.vdd, ops[i].1, cfg.wordSize)))
  }

  lemma LedgerSnoc(cfg: Config, ledger: seq<Entry>, base: seq<Entry>, t0: real, ops: seq<(nat, nat)>)
    requires |ops| > 0
    requires LedgerOf(cfg, ledger, base, t0, ops[..|ops| - 1])
    ensures LedgerOf(cfg, ledger + [Entry(t0 + Periods(|ops|, cfg.clkPer),
                                           Levels(cfg.vdd, ops[|ops| - 1].1, cfg.wordSize))],
                     base, t0, ops)
  {
    var ops' := ops[..|ops| - 1];
    var r := ledger + [Entry(t0 + Periods(|ops|, cfg.clkPer), Levels(cfg.vdd, ops[|ops| - 1].1, cfg.wordSize))];
    forall i | 0 <= i < |ops|
      ensures r[|base| + i] == Entry(SampleTime(t0, i, cfg.clkPer), Levels(cfg.vdd, ops[i].1, cfg.wordSize))
    {
      if i < |ops'| {
        assert r[|base| + i] == ledger[|base| + i];
        assert ops[i] == ops'[i];
      }
    }
    assert r[..|base|] == ledger[..|base|];
  }

  /**
   * A run of checks appends one ledger entry per check, the `i`-th at the start time plus
   * `i+1` periods, holding the rails of the `i`-th check's word.
   */
  lemma {:induction false} CheckAllLedger(cfg: Config, st: State, ops: seq<(nat, nat)>)
    requires Shaped(cfg, st)
    ensures LedgerOf(cfg, CheckAll(cfg, st, ops).expct, st.expct, st.time.t, ops)
    decreases |ops|
  {
    if |ops| > 0 {
      var ops' := ops[..|ops| - 1];
      var m := CheckAll(cfg, st, ops');
      CheckAllLedger(cfg, st, ops');
      CheckAllTime(cfg, st, ops');
      LedgerSnoc(cfg, m.expct, st.expct, st.time.t, ops);
    }
  }

  /** The power-up settle ends at ten periods with one level change on the supply and on `web0`. */
  lemma SettleEffect(cfg: Config)
    ensures var r := AfterSettle(cfg);
      var i := Initial(cfg);
      && r.time.t == 10.0 * cfg.clkPer
      && r.expct == []
      && r.din == i.din && r.addr == i.addr && r.csb == i.csb && r.clk == i.clk
      && Grown(r.vddSrc, i.vddSrc, 2) && Grown(r.web, i.web, 2)
      && r.vddSrc == Put(i.vddSrc, cfg.vdd, 5.0 * cfg.clkPer)
      && r.web == Put(i.web, cfg.vdd, 5.0 * cfg.clkPer)
      && r.vddSrc.pts == r.web.pts
         == [Point(0.0, 0.0), Point(5.0 * cfg.clkPer - DefaultTtr, 0.0), Point(5.0 * cfg.clkPer, cfg.vdd)]
      && (DefaultTtr <= 0.4 * cfg.clkPer ==> WellTimed(cfg, r))
  {
    var i := Initial(cfg);
    var r := AfterSettle(cfg);
    if DefaultTtr <= 0.4 * cfg.clkPer {
      var t1 := 5.0 * cfg.clkPer;
      var h := r.time.t - 0.4 * cfg.clkPer;
      PutOrdered(i.vddSrc, cfg.vdd, t1);
      PutOrdered(i.web, cfg.vdd, t1);
      assert r.vddSrc.pts[0] == r.vddSrc.pts[..1][0];
      assert r.web.pts[0] == r.web.pts[..1][0];
      assert Ready(cfg, r.vddSrc, h) && Ready(cfg, r.web, h);
      forall k | 0 <= k < |r.din| ensures Ready(cfg, r.din[k], h) {
        assert r.din[k].pts == [Point(0.0, 0.0)];
      }
      forall k | 0 <= k < |r.addr| ensures Ready(cfg, r.addr[k], h) {
        assert r.addr[k].pts == [Point(0.0, 0.0)];
      }
    }
  }

  /** Stages of the whole program, with the number of words written and checked. */
  lemma {:induction false} StageTimes(cfg: Config, data: seq<nat>, p1: seq<nat>, p2: seq<nat>)
    requires ValidInputs(cfg, data, p1, p2)
    ensures AfterWrites(cfg, data, p1, p2).time.t == 10.0 * cfg.clkPer + Periods(cfg.numWords, cfg.clkPer)
    ensures AfterWrites(cfg, data, p1, p2).expct == []
    ensures AfterChecks(cfg, data, p1, p2).time.t
            == 10.0 * cfg.clkPer + Periods(cfg.numWords, cfg.clkPer) + Periods(cfg.numWords, cfg.clkPer)
    ensures Final(cfg, data, p1, p2).time.t
            == 15.0 * cfg.clkPer + Periods(cfg.numWords, cfg.clkPer) + Periods(cfg.numWords, cfg.clkPer)
  {
    SettleEffect(cfg);
    WriteAllTime(cfg, AfterSettle(cfg), Writes(cfg, data, p1, p2));
    CheckAllTime(cfg, AfterWrites(cfg, data, p1, p2), Reads(cfg, data, p1, p2));
  }

  lemma EndArith(n: nat, c: real)
    ensures 15.0 * c + Periods(n, c) + Periods(n, c) == ((15 + 2 * n) as real) * c
  {
    PeriodsProduct(n, c);
  }

  lemma FinalPeriods(cfg: Config, data: seq<nat>, p1: seq<nat>, p2: seq<nat>)
    requires ValidInputs(cfg, data, p1, p2)
    ensures Final(cfg, data, p1, p2).time.t
            == 15.0 * cfg.clkPer + Periods(cfg.numWords, cfg.clkPer) + Periods(cfg.numWords, cfg.clkPer)
  {
    StageTimes(cfg, data, p1, p2);
  }

  lemma EndOfStages(cfg: Config, f: State)
    requires f.time.t == 15.0 * cfg.clkPer + Periods(cfg.numWords, cfg.clkPer) + Periods(cfg.numWords, cfg.clkPer)
    ensures f.time.t == ((15 + 2 * cfg.numWords) as real) * cfg.clkPer
  {
    EndArith(cfg.numWords, cfg.clkPer);
  }

  lemma FinalTime(cfg: Config, data: seq<nat>, p1: seq<nat>, p2: seq<nat>)
    requires ValidInputs(cfg, data, p1, p2)
    ensures Final(cfg, data, p1, p2).time.t == ((15 + 2 * cfg.numWords) as real) * cfg.clkPer
  {
    FinalPeriods(cfg, data, p1, p2);
    EndOfStages(cfg, Final(cfg, data, p1, p2));
  }

  /** The program ends `15 + 2*num_words` periods after time zero. */
  lemma EndTime(cfg: Config, data: seq<nat>, p1: seq<nat>, p2: seq<nat>)
    requires ValidInputs(cfg, data, p1, p2)
    ensures Generate(cfg, data, p1, p2).endTime == ((15 + 2 * cfg.numWords) as real) * cfg.clkPer
  {
    FinalTime(cfg, data, p1, p2);
  }

  lemma LedgerTime(t0: real, n: nat, i: nat, c: real)
    requires t0 == 10.0 * c + Periods(n, c)
    ensures SampleTime(t0, i, c) == ((11 + n + i) as real) * c
  {
    PeriodsProduct(n, c);
    PeriodsProduct(i + 1, c);
  }

  /** Entry `i` of a ledger is stamped `11 + n + i` periods and holds the rails of word `i` of `ops`. */
  predicate StampedLedger(cfg: Config, ledger: seq<Entry>, ops: seq<(nat, nat)>) {
    && |ledger| == |ops|
    && (forall i :: 0 <= i < |ops| ==>
          ledger[i] == Entry(((11 + |ops| + i) as real) * cfg.clkPer, Levels(cfg.vdd, ops[i].1, cfg.wordSize)))
  }

  lemma LedgerTimes(t0: real, n: nat, c: real)
    requires t0 == 10.0 * c + Periods(n, c)
    ensures forall i :: 0 <= i < n ==> SampleTime(t0, i, c) == ((11 + n + i) as real) * c
  {
    forall i | 0 <= i < n ensures SampleTime(t0, i, c) == ((11 + n + i) as real) * c {
      LedgerTime(t0, n, i, c);
    }
  }

  lemma StampLedger(cfg: Config, ledger: seq<Entry>, t0: real, ops: seq<(nat, nat)>)
    requires LedgerOf(cfg, ledger, [], t0, ops)
    requires t0 == 10.0 * cfg.clkPer + Periods(|ops|, cfg.clkPer)
    ensures StampedLedger(cfg, ledger, ops)
  {
    LedgerTimes(t0, |ops|, cfg.clkPer);
  }

  /**
   * The ledger holds one entry per check, in check order: the `i`-th is stamped
   * `11 + num_words + i` periods and holds the rails of the `i`-th checked word.
   */
  lemma LedgerEntries(cfg: Config, data: seq<nat>, p1: seq<nat>, p2: seq<nat>)
    requires ValidInputs(cfg, data, p1, p2)
    ensures StampedLedger(cfg, Generate(cfg, data, p1, p2).expct, Reads(cfg, data, p1, p2))
  {
    var w := AfterWrites(cfg, data, p1, p2);
    var ops := Reads(cfg, data, p1, p2);
    StageTimes(cfg, data, p1, p2);
    CheckAllLedger(cfg, w, ops);
    assert Generate(cfg, data, p1, p2).expct == CheckAll(cfg, w, ops).expct;
    StampLedger(cfg, CheckAll(cfg, w, ops).expct, w.time.t, ops);
  }

  lemma StampsOrdered(n: nat, i: nat, j: nat, c: real)
    requires c > 0.0 && i < j
    ensures ((11 + n + i) as real) * c < ((11 + n + j) as real) * c
  {
  }

  lemma StampsInside(n: nat, i: nat, c: real)
    requires c > 0.0 && i < n
    ensures 0.0 < ((11 + n + i) as real) * c < ((15 + 2 * n) as real) * c
  {
  }

  /** The stamps of `ledger` strictly increase and lie strictly between 0 and `end`. */
  predicate InOrderWithin(ledger: seq<Entry>, end: real) {
    && (forall i, j :: 0 <= i < j < |ledger| ==> ledger[i].time < ledger[j].time)
    && (forall i :: 0 <= i < |ledger| ==> 0.0 < ledger[i].time < end)
  }

  /** Entry `i` of a ledger of `n` entries is stamped `11 + n + i` periods. */
  predicate StampedTimes(cfg: Config, ledger: seq<Entry>, n: nat) {
    && |ledger| == n
    && (forall i :: 0 <= i < n ==> ledger[i].time == ((11 + n + i) as real) * cfg.clkPer)
  }

  lemma StampedHasTimes(cfg: Config, ledger: seq<Entry>, ops: seq<(nat, nat)>, n: nat)
    requires StampedLedger(cfg, ledger, ops) && |ops| == n
    ensures StampedTimes(cfg, ledger, n)
  {
    forall i | 0 <= i < n ensures ledger[i].time == ((11 + n + i) as real) * cfg.clkPer {
      assert ledger[i].time == ((11 + |ops| + i) as real) * cfg.clkPer;
    }
  }

  /** The ledger's stamps and the end of the run, both in whole periods. */
  predicate TimedLedger(cfg: Config, ledger: seq<Entry>, n: nat, end: real) {
    && StampedTimes(cfg, ledger, n)
    && end == ((15 + 2 * n) as real) * cfg.clkPer
  }

  lemma LedgerTimed(cfg: Config, data: seq<nat>, p1: seq<nat>, p2: seq<nat>)
    requires ValidInputs(cfg, data, p1, p2)
    ensures TimedLedger(cfg, Generate(cfg, data, p1, p2).expct, cfg.numWords, Generate(cfg, data, p1, p2).endTime)
  {
    LedgerEntries(cfg, data, p1, p2);
    EndTime(cfg, data, p1, p2);
    StampedHasTimes(cfg, Generate(cfg, data, p1, p2).expct, Reads(cfg, data, p1, p2), cfg.numWords);
  }

  lemma StampedOrdered(cfg: Config, ledger: seq<Entry>, n: nat, end: real)
    requires TimedLedger(cfg, ledger, n, end) && cfg.clkPer > 0.0
    ensures InOrderWithin(ledger, end)
  {
    forall i, j | 0 <= i < j < |ledger| ensures ledger[i].time < ledger[j].time {
      StampsOrdered(n, i, j, cfg.clkPer);
    }
    forall i | 0 <= i < |ledger| ensures 0.0 < ledger[i].time < end {
      assert ledger[i].time == ((11 + n + i) as real) * cfg.clkPer;
      StampsInside(n, i, cfg.clkPer);
    }
  }

  /** With a positive period the ledger's stamps strictly increase and lie strictly inside the run. */
  lemma LedgerOrdered(cfg: Config, data: seq<nat>, p1: seq<nat>, p2: seq<nat>)
    requires ValidInputs(cfg, data, p1, p2)
    requires cfg.clkPer > 0.0
    ensures InOrderWithin(Generate(cfg, data, p1, p2).expct, Generate(cfg, data, p1, p2).endTime)
  {
    var r := Generate(cfg, data, p1, p2);
    LedgerTimed(cfg, data, p1, p2);
    StampedOrdered(cfg, r.expct, cfg.numWords, r.endTime);
  }
}
