/** What the generator hands on: write/read pairing, rendered sources and the port list. */
module PreprocessOutput {
  import opened TimeCursor
  import opened Pwl
  import opened Bits
  import opened Sequencer
  import opened Preprocess
  import opened PreprocessProperties

  /** Some operation of `ops` is at address `a`. */
  predicate Occurs(ops: seq<(nat, nat)>, a: nat) {
    exists i :: 0 <= i < |ops| && ops[i].0 == a
  }

  /** Every address below `n` occurs in exactly one of the `n` operations. */
  predicate CoversOnce(ops: seq<(nat, nat)>, n: nat) {
    && |ops| == n
    && (forall i :: 0 <= i < n ==> ops[i].0 < n)
    && (forall a: nat :: a < n ==> Occurs(ops, a))
    && (forall i, j :: 0 <= i < j < n ==> ops[i].0 != ops[j].0)
  }

  /** Each operation carries the data word drawn for its address. */
  predicate CarriesData(ops: seq<(nat, nat)>, data: seq<nat>) {
    forall i :: 0 <= i < |ops| ==> ops[i].0 < |data| && ops[i].1 == data[ops[i].0]
  }

  lemma ShuffleStimulus(data: seq<nat>, q: seq<nat>)
    requires IsPermutation(q, |data|)
    ensures CoversOnce(Shuffle(Stimulus(data), q), |data|)
    ensures CarriesData(Shuffle(Stimulus(data), q), data)
  {
    var s := Shuffle(Stimulus(data), q);
    forall i | 0 <= i < |data| ensures s[i] == (q[i], data[q[i]]) {
    }
    forall a: nat | a < |data| ensures Occurs(s, a) {
      assert a in q;
      var i :| 0 <= i < |q| && q[i] == a;
      assert s[i] == (q[i], data[q[i]]);
      assert 0 <= i < |data| && s[i].0 == a;
    }
  }

  /** Following one ordering by another is again an ordering of the same indices. */
  lemma ComposePermutation(p1: seq<nat>, p2: seq<nat>, n: nat)
    requires IsPermutation(p1, n) && IsPermutation(p2, n)
    ensures IsPermutation(Compose(p1, p2, n), n)
  {
    var q := Compose(p1, p2, n);
    forall k | 0 <= k < n ensures k in q {
      assert k in p1;
      var j :| 0 <= j < n && p1[j] == k;
      assert j in p2;
      var i :| 0 <= i < n && p2[i] == j;
      assert q[i] == k;
    }
  }

  /** Shuffling twice is one shuffle by the composed ordering. */
  lemma ShuffleTwice<T>(s: seq<T>, p1: seq<nat>, p2: seq<nat>)
    requires IsPermutation(p1, |s|) && IsPermutation(p2, |s|)
    ensures IsPermutation(Compose(p1, p2, |s|), |s|)
    ensures Shuffle(Shuffle(s, p1), p2) == Shuffle(s, Compose(p1, p2, |s|))
  {
    ComposePermutation(p1, p2, |s|);
    var a := Shuffle(Shuffle(s, p1), p2);
    var b := Shuffle(s, Compose(p1, p2, |s|));
    assert forall i :: 0 <= i < |s| ==> a[i] == b[i];
  }

  /**
   * Both phases touch every address exactly once, and each operation carries the word
   * drawn for its address, whatever the two shuffles chose.
   */
  lemma EachAddressOnce(cfg: Config, data: seq<nat>, p1: seq<nat>, p2: seq<nat>)
    requires ValidInputs(cfg, data, p1, p2)
    ensures CoversOnce(Writes(cfg, data, p1, p2), cfg.numWords)
    ensures CoversOnce(Reads(cfg, data, p1, p2), cfg.numWords)
    ensures CarriesData(Writes(cfg, data, p1, p2), data)
    ensures CarriesData(Reads(cfg, data, p1, p2), data)
    ensures forall i :: 0 <= i < cfg.numWords ==> data[i] < Pow2(cfg.wordSize)
  {
    ShuffleStimulus(data, p1);
    ShuffleTwice(Stimulus(data), p1, p2);
    ShuffleStimulus(data, Compose(p1, p2, cfg.numWords));
  }

  /** The word each address holds after the operations, the last write to it winning. */
  function Memory(ops: seq<(nat, nat)>): (r: map<nat, nat>)
    decreases |ops|
  {
    if |ops| == 0 then map[]
    else Memory(ops[..|ops| - 1])[ops[|ops| - 1].0 := ops[|ops| - 1].1]
  }

  lemma {:induction false} MemoryOfDistinct(ops: seq<(nat, nat)>)
    requires forall i, j :: 0 <= i < j < |ops| ==> ops[i].0 != ops[j].0
    ensures forall i :: 0 <= i < |ops| ==> ops[i].0 in Memory(ops) && Memory(ops)[ops[i].0] == ops[i].1
    decreases |ops|
  {
    if |ops| > 0 {
      var ops' := ops[..|ops| - 1];
      MemoryOfDistinct(ops');
      forall i | 0 <= i < |ops| ensures ops[i].0 in Memory(ops) && Memory(ops)[ops[i].0] == ops[i].1 {
        if i < |ops'| {
          assert ops[i] == ops'[i];
        }
      }
    }
  }

  /**
   * Every check expects the word the writes left at its address: the memory after all writes
   * holds it, the ledger entry carries its rails, and reading those rails gives the word back.
   */
  lemma ReadsSeeWrites(cfg: Config, data: seq<nat>, p1: seq<nat>, p2: seq<nat>)
    requires ValidInputs(cfg, data, p1, p2)
    ensures var mem := Memory(Writes(cfg, data, p1, p2));
      var rd := Reads(cfg, data, p1, p2);
      var ledger := Generate(cfg, data, p1, p2).expct;
      && |ledger| == |rd| == cfg.numWords
      && (forall i :: 0 <= i < |rd| ==> rd[i].0 in mem && mem[rd[i].0] == rd[i].1)
      && (forall i :: 0 <= i < |rd| ==> ledger[i].vals == Levels(cfg.vdd, mem[rd[i].0], cfg.wordSize))
      && (cfg.vdd != 0.0 ==> forall i :: 0 <= i < |rd| ==> DecodeLevels(ledger[i].vals, cfg.vdd) == mem[rd[i].0])
  {
    var w := Writes(cfg, data, p1, p2);
    var rd := Reads(cfg, data, p1, p2);
    var mem := Memory(w);
    EachAddressOnce(cfg, data, p1, p2);
    MemoryOfDistinct(w);
    forall i | 0 <= i < |rd| ensures rd[i].0 in mem && mem[rd[i].0] == rd[i].1 {
      var j :| 0 <= j < |w| && w[j].0 == rd[i].0;
    }
    LedgerEntries(cfg, data, p1, p2);
    if cfg.vdd != 0.0 {
      forall i | 0 <= i < |rd| ensures DecodeLevels(Levels(cfg.vdd, rd[i].1, cfg.wordSize), cfg.vdd) == rd[i].1 {
        DecodeLevelsRoundTrip(cfg.vdd, rd[i].1, cfg.wordSize);
      }
    }
  }

  /**
   * The sources of `f` against the fresh ones after `n` writes and `n` checks: each data line
   * gained `4n` points, each address line `8n`, `web0` `2 + 8n`, the clock `8n`, the supply 2,
   * and `csb0` none.
   */
  predicate GrownFromFresh(cfg: Config, f: State, n: nat) {
    var i := Initial(cfg);
    && Shaped(cfg, f)
    && (forall k :: 0 <= k < cfg.wordSize ==> Grown(f.din[k], i.din[k], 4 * n))
    && (forall k :: 0 <= k < cfg.addrSize ==> Grown(f.addr[k], i.addr[k], 8 * n))
    && Grown(f.web, i.web, 2 + 8 * n) && Grown(f.clk, i.clk, 8 * n)
    && f.csb == i.csb && Grown(f.vddSrc, i.vddSrc, 2)
  }

  lemma WritesGrowth(cfg: Config, data: seq<nat>, p1: seq<nat>, p2: seq<nat>)
    requires ValidInputs(cfg, data, p1, p2)
    ensures GrownAll(cfg, AfterWrites(cfg, data, p1, p2), AfterSettle(cfg), 4 * cfg.numWords, 4 * cfg.numWords)
  {
    WriteAllGrows(cfg, AfterSettle(cfg), Writes(cfg, data, p1, p2));
  }

  lemma ChecksGrowth(cfg: Config, data: seq<nat>, p1: seq<nat>, p2: seq<nat>)
    requires ValidInputs(cfg, data, p1, p2)
    ensures GrownAll(cfg, AfterChecks(cfg, data, p1, p2), AfterWrites(cfg, data, p1, p2), 0, 4 * cfg.numWords)
  {
    CheckAllGrows(cfg, AfterWrites(cfg, data, p1, p2), Reads(cfg, data, p1, p2));
  }

  /** The settle, `n` writes and `n` checks chained: the growth of each stage adds up. */
  lemma GrowthChain(cfg: Config, s: State, w: State, c: State, n: nat)
    requires Shaped(cfg, s) && Shaped(cfg, w) && Shaped(cfg, c)
    requires s == AfterSettle(cfg)
    requires GrownAll(cfg, w, s, 4 * n, 4 * n) && GrownAll(cfg, c, w, 0, 4 * n)
    ensures GrownFromFresh(cfg, c, n)
  {
    var i := Initial(cfg);
    GrownTrans(cfg, c, w, s, 4 * n, 4 * n, 0, 4 * n);
    SettleEffect(cfg);
    GrownTrans1(c.web, s.web, i.web, 2, 8 * n);
    GrownTrans1(c.clk, s.clk, i.clk, 0, 8 * n);
    GrownTrans1(c.vddSrc, s.vddSrc, i.vddSrc, 2, 0);
    forall k | 0 <= k < cfg.wordSize ensures Grown(c.din[k], i.din[k], 4 * n) {
      GrownTrans1(c.din[k], s.din[k], i.din[k], 0, 4 * n);
    }
    forall k | 0 <= k < cfg.addrSize ensures Grown(c.addr[k], i.addr[k], 8 * n) {
      GrownTrans1(c.addr[k], s.addr[k], i.addr[k], 0, 8 * n);
    }
  }

  /** Waiting changes no source. */
  lemma GrownWait(cfg: Config, c: State, dt: real, n: nat)
    requires GrownFromFresh(cfg, c, n)
    ensures GrownFromFresh(cfg, c.(time := Incr(c.time, dt)), n)
  {
  }

  /** How the final state's sources relate to the fresh ones, by number of level changes. */
  lemma FinalGrowth(cfg: Config, data: seq<nat>, p1: seq<nat>, p2: seq<nat>)
    requires ValidInputs(cfg, data, p1, p2)
    ensures GrownFromFresh(cfg, Final(cfg, data, p1, p2), cfg.numWords)
  {
    var c := AfterChecks(cfg, data, p1, p2);
    WritesGrowth(cfg, data, p1, p2);
    ChecksGrowth(cfg, data, p1, p2);
    GrowthChain(cfg, AfterSettle(cfg), AfterWrites(cfg, data, p1, p2), c, cfg.numWords);
    GrownWait(cfg, c, 5.0 * cfg.clkPer, cfg.numWords);
  }

  /** A rendered source of a fresh source after `m` level changes: `2m+2` pairs from `(0, 0)`. */
  predicate RenderedAfter(r: SourceSpec, s0: Source, m: nat) {
    && r.name == s0.name && r.drive == s0.drive
    && |r.pwl| == 2 * m + 2
    && r.pwl[0] == Point(0.0, 0.0)
    && r.dc == 0.0
  }

  lemma RenderGrown(s: Source, s0: Source, m: nat, t: real)
    requires Valid(s) && s0.pts == [Point(0.0, 0.0)] && Grown(s, s0, 2 * m)
    ensures RenderedAfter(Compile(s, t).spec, s0, m)
  {
    assert s.pts[0] == s.pts[..1][0];
  }

  /**
   * Point counts of rendered sources after `n` writes and `n` checks, in rendering order: the
   * supply changes once, `csb0` never, `web0` `1 + 4n` times, the clock and each address line
   * `4n` times, each data line `2n` times; every one starts at `(0, 0)` with DC level 0.
   */
  predicate RenderedShape(cfg: Config, srcs: seq<SourceSpec>, end: real, n: nat) {
    var i := Initial(cfg);
    && |srcs| == 4 + cfg.wordSize + cfg.addrSize
    && RenderedAfter(srcs[0], i.vddSrc, 1)
    && srcs[1].pwl == [Point(0.0, 0.0), Point(end, 0.0)]
    && RenderedAfter(srcs[1], i.csb, 0)
    && RenderedAfter(srcs[2], i.web, 1 + 4 * n)
    && RenderedAfter(srcs[3], i.clk, 4 * n)
    && (forall k :: 0 <= k < cfg.wordSize ==> RenderedAfter(srcs[4 + k], i.din[k], 2 * n))
    && (forall k :: 0 <= k < cfg.addrSize ==> RenderedAfter(srcs[4 + cfg.wordSize + k], i.addr[k], 4 * n))
  }

  lemma RenderShape(cfg: Config, f: State, n: nat)
    requires GrownFromFresh(cfg, f, n)
    ensures RenderedShape(cfg, Render(cfg, f), f.time.t, n)
  {
    var r := Render(cfg, f);
    var i := Initial(cfg);
    var t := f.time.t;
    RenderGrown(f.vddSrc, i.vddSrc, 1, t);
    RenderGrown(f.csb, i.csb, 0, t);
    RenderGrown(f.web, i.web, 1 + 4 * n, t);
    RenderGrown(f.clk, i.clk, 4 * n, t);
    forall k | 0 <= k < cfg.wordSize ensures RenderedAfter(r[4 + k], i.din[k], 2 * n) {
      RenderGrown(f.din[k], i.din[k], 2 * n, t);
      assert r[4 + k] == Compile(f.din[k], t).spec;
    }
    forall k | 0 <= k < cfg.addrSize ensures RenderedAfter(r[4 + cfg.wordSize + k], i.addr[k], 4 * n) {
      RenderGrown(f.addr[k], i.addr[k], 4 * n, t);
      assert r[4 + cfg.wordSize + k] == Compile(f.addr[k], t).spec;
    }
  }

  /** Point counts of the rendered program, with `n` the number of words. */
  lemma RenderedCounts(cfg: Config, data: seq<nat>, p1: seq<nat>, p2: seq<nat>)
    requires ValidInputs(cfg, data, p1, p2)
    ensures RenderedShape(cfg, Generate(cfg, data, p1, p2).sources, Generate(cfg, data, p1, p2).endTime, cfg.numWords)
  {
    var f := Final(cfg, data, p1, p2);
    FinalGrowth(cfg, data, p1, p2);
    RenderShape(cfg, f, cfg.numWords);
  }

  /** A PWL list a simulator can take: times never decrease and none is negative. */
  predicate Monotone(pwl: seq<Point>) {
    Ordered(pwl) && forall m :: 0 <= m < |pwl| ==> pwl[m].time >= 0.0
  }

  lemma RenderReady(cfg: Config, s: Source, h: real, t: real)
    requires Ready(cfg, s, h) && h <= t
    ensures Monotone(Compile(s, t).spec.pwl)
  {
    var pwl := Compile(s, t).spec.pwl;
    CompileOrdered(s, t);
    assert pwl[0] == Point(0.0, 0.0);
  }

  lemma AfterChecksWellTimed(cfg: Config, data: seq<nat>, p1: seq<nat>, p2: seq<nat>)
    requires ValidInputs(cfg, data, p1, p2)
    requires DefaultTtr <= 0.4 * cfg.clkPer
    ensures WellTimed(cfg, AfterChecks(cfg, data, p1, p2))
  {
    SettleEffect(cfg);
    WriteAllWellTimed(cfg, AfterSettle(cfg), Writes(cfg, data, p1, p2));
    CheckAllWellTimed(cfg, AfterWrites(cfg, data, p1, p2), Reads(cfg, data, p1, p2));
  }

  /** Waiting keeps every source well timed: the slack before the cursor only grows. */
  lemma WellTimedLater(cfg: Config, st: State, dt: real)
    requires WellTimed(cfg, st) && dt >= 0.0
    ensures WellTimed(cfg, st.(time := Incr(st.time, dt)))
  {
    var h := st.time.t - 0.4 * cfg.clkPer;
    var h' := h + dt;
    forall k | 0 <= k < |st.din| ensures Ready(cfg, st.din[k], h') {
      ReadyLater(cfg, st.din[k], h, h');
    }
    forall k | 0 <= k < |st.addr| ensures Ready(cfg, st.addr[k], h') {
      ReadyLater(cfg, st.addr[k], h, h');
    }
    ReadyLater(cfg, st.csb, h, h');
    ReadyLater(cfg, st.web, h, h');
    ReadyLater(cfg, st.clk, h, h');
    ReadyLater(cfg, st.vddSrc, h, h');
  }

  /** Every waveform of `srcs` is `Monotone`. */
  predicate AllMonotone(srcs: seq<SourceSpec>) {
    forall j :: 0 <= j < |srcs| ==> Monotone(srcs[j].pwl)
  }

  /** Rendering a well-timed state at its cursor gives non-decreasing, non-negative waveforms. */
  lemma RenderWellTimed(cfg: Config, st: State)
    requires WellTimed(cfg, st)
    ensures AllMonotone(Render(cfg, st))
  {
    var r := Render(cfg, st);
    var h := st.time.t - 0.4 * cfg.clkPer;
    var t := st.time.t;
    var ws := cfg.wordSize;
    assert h <= t by {
      assert 0.0 <= st.vddSrc.tTr <= 0.4 * cfg.clkPer;
    }
    forall j | 0 <= j < |r| ensures Monotone(r[j].pwl) {
      if j == 0 {
        RenderReady(cfg, st.vddSrc, h, t);
      } else if j == 1 {
        RenderReady(cfg, st.csb, h, t);
      } else if j == 2 {
        RenderReady(cfg, st.web, h, t);
      } else if j == 3 {
        RenderReady(cfg, st.clk, h, t);
      } else if j < 4 + ws {
        RenderReady(cfg, st.din[j - 4], h, t);
        assert r[j] == Compile(st.din[j - 4], t).spec;
      } else {
        RenderReady(cfg, st.addr[j - 4 - ws], h, t);
        assert r[j] == Compile(st.addr[j - 4 - ws], t).spec;
      }
    }
  }

  /** The final state is well timed when the slew fits in the last 40% of a period. */
  lemma FinalWellTimed(cfg: Config, data: seq<nat>, p1: seq<nat>, p2: seq<nat>)
    requires ValidInputs(cfg, data, p1, p2)
    requires DefaultTtr <= 0.4 * cfg.clkPer
    ensures WellTimed(cfg, Final(cfg, data, p1, p2))
  {
    AfterChecksWellTimed(cfg, data, p1, p2);
    WellTimedLater(cfg, AfterChecks(cfg, data, p1, p2), 5.0 * cfg.clkPer);
  }

  /**
   * When the one-picosecond slew is at most `0.4*clk_per`, every rendered source lists its
   * points in non-decreasing, non-negative time order.
   */
  lemma RenderedMonotone(cfg: Config, data: seq<nat>, p1: seq<nat>, p2: seq<nat>)
    requires ValidInputs(cfg, data, p1, p2)
    requires DefaultTtr <= 0.4 * cfg.clkPer
    ensures AllMonotone(Generate(cfg, data, p1, p2).sources)
  {
    FinalWellTimed(cfg, data, p1, p2);
    RenderWellTimed(cfg, Final(cfg, data, p1, p2));
  }

  /**
   * `conn_ports` in order: `din0[k]` for each data bit, `addr0[k]` for each address bit,
   * `csb0 web0 clk0`, `dout0[k]` for each data bit, then `vdd` and `0`; each probe is the
   * voltage of one `dout0[k]`.
   */
  lemma PortLayout(cfg: Config)
    ensures var ports := ConnPorts(cfg);
      var ws := cfg.wordSize;
      var aw := cfg.addrSize;
      && (forall k :: 0 <= k < ws ==> ports[k] == BusPort("din0", k))
      && (forall k :: 0 <= k < aw ==> ports[ws + k] == BusPort("addr0", k))
      && ports[ws + aw] == "csb0" && ports[ws + aw + 1] == "web0" && ports[ws + aw + 2] == "clk0"
      && (forall k :: 0 <= k < ws ==> ports[ws + aw + 3 + k] == BusPort("dout0", k))
      && ports[2 * ws + aw + 3] == "vdd" && ports[2 * ws + aw + 4] == "0"
      && (forall k :: 0 <= k < ws ==> ProbePorts(cfg)[k] == "V(" + ports[ws + aw + 3 + k] + ")")
  {
  }

  /** The fresh sources: all at `(0, 0)` with the default slew; bus sources named `din0_k`/`addr0_k` drive `din0[k]`/`addr0[k]`. */
  lemma InitialSources(cfg: Config)
    ensures var i := Initial(cfg);
      && i.vddSrc.name == i.vddSrc.drive == "vdd" && i.csb.name == i.csb.drive == "csb0"
      && i.web.name == i.web.drive == "web0" && i.clk.name == i.clk.drive == "clk0"
      && i.vddSrc.pts == i.csb.pts == i.web.pts == i.clk.pts == [Point(0.0, 0.0)]
      && i.vddSrc.tTr == i.csb.tTr == i.web.tTr == i.clk.tTr == DefaultTtr
      && (forall k :: 0 <= k < cfg.wordSize ==>
            i.din[k].name == BusSource("din0", k) && i.din[k].drive == BusPort("din0", k)
            && i.din[k].pts == [Point(0.0, 0.0)] && i.din[k].tTr == DefaultTtr)
      && (forall k :: 0 <= k < cfg.addrSize ==>
            i.addr[k].name == BusSource("addr0", k) && i.addr[k].drive == BusPort("addr0", k)
            && i.addr[k].pts == [Point(0.0, 0.0)] && i.addr[k].tTr == DefaultTtr)
  {
  }

  /** The nodes the program's sources drive, in rendering order. */
  predicate DrivesInOrder(cfg: Config, sources: seq<SourceSpec>) {
    && |sources| == 4 + cfg.wordSize + cfg.addrSize
    && sources[0].drive == "vdd" && sources[1].drive == "csb0"
    && sources[2].drive == "web0" && sources[3].drive == "clk0"
    && (forall k :: 0 <= k < cfg.wordSize ==> sources[4 + k].drive == BusPort("din0", k))
    && (forall k :: 0 <= k < cfg.addrSize ==> sources[4 + cfg.wordSize + k].drive == BusPort("addr0", k))
  }

  lemma DrivesAreInputPorts(cfg: Config, sources: seq<SourceSpec>)
    requires DrivesInOrder(cfg, sources)
    ensures forall j :: 0 <= j < |sources| ==> sources[j].drive in ConnPorts(cfg)
  {
    var ports := ConnPorts(cfg);
    var ws := cfg.wordSize;
    var aw := cfg.addrSize;
    PortLayout(cfg);
    forall j | 0 <= j < |sources| ensures sources[j].drive in ports {
      if j == 0 {
        assert ports[2 * ws + aw + 3] == "vdd";
      } else if j == 1 {
        assert ports[ws + aw] == "csb0";
      } else if j == 2 {
        assert ports[ws + aw + 1] == "web0";
      } else if j == 3 {
        assert ports[ws + aw + 2] == "clk0";
      } else if j < 4 + ws {
        var k := j - 4;
        assert sources[4 + k].drive == BusPort("din0", k);
        assert ports[k] == BusPort("din0", k);
      } else {
        var k := j - 4 - ws;
        assert sources[4 + ws + k].drive == BusPort("addr0", k);
        assert ports[ws + k] == BusPort("addr0", k);
      }
    }
  }

  lemma ShapedDrives(cfg: Config, srcs: seq<SourceSpec>, end: real, n: nat)
    requires RenderedShape(cfg, srcs, end, n)
    ensures DrivesInOrder(cfg, srcs)
    ensures forall j :: 0 <= j < |srcs| ==> srcs[j].drive in ConnPorts(cfg)
  {
    InitialSources(cfg);
    DrivesAreInputPorts(cfg, srcs);
  }

  /**
   * Every rendered source drives an input port of the memory: supply to `vdd`, the controls
   * to `csb0 web0 clk0`, data source `k` to `din0[k]` and address source `k` to `addr0[k]`;
   * so every source's node is in the port list.
   */
  lemma SourcesDrivePorts(cfg: Config, data: seq<nat>, p1: seq<nat>, p2: seq<nat>)
    requires ValidInputs(cfg, data, p1, p2)
    ensures DrivesInOrder(cfg, Generate(cfg, data, p1, p2).sources)
    ensures var r := Generate(cfg, data, p1, p2);
      forall j :: 0 <= j < |r.sources| ==> r.sources[j].drive in r.connPorts
  {
    var r := Generate(cfg, data, p1, p2);
    RenderedCounts(cfg, data, p1, p2);
    ShapedDrives(cfg, r.sources, r.endTime, cfg.numWords);
  }

  /** One word: no address lines, one write and one check of address 0, one ledger entry. */
  lemma SingleWord(cfg: Config, data: seq<nat>, p1: seq<nat>, p2: seq<nat>)
    requires ValidInputs(cfg, data, p1, p2)
    requires cfg.numWords == 1
    ensures cfg.addrSize == 0
    ensures Writes(cfg, data, p1, p2) == [(0, data[0])] == Reads(cfg, data, p1, p2)
    ensures |Generate(cfg, data, p1, p2).expct| == 1
    ensures |Generate(cfg, data, p1, p2).sources| == 4 + cfg.wordSize
  {
    assert 0 in p1 && 0 in p2;
    LedgerEntries(cfg, data, p1, p2);
  }

  /** The ledger of a two-word run over `data == [1, 0]`: reads the stamped entries back. */
  lemma ScenarioLedger(cfg: Config, ledger: seq<Entry>, rd: seq<(nat, nat)>, data: seq<nat>)
    requires cfg == Config(2, 1, 1, 3.3, 0.00000001) && data == [1, 0]
    requires StampedLedger(cfg, ledger, rd) && CoversOnce(rd, 2) && CarriesData(rd, data)
    ensures |ledger| == 2
    ensures forall i :: 0 <= i < 2 ==> ledger[i].vals == (if rd[i].0 == 0 then [3.3] else [0.0])
    ensures ledger[1].time - ledger[0].time == 0.00000001
  {
    assert Levels(3.3, 1, 1) == [3.3] by {
      assert Bit(1, 0) == 1;
    }
    assert Levels(3.3, 0, 1) == [0.0] by {
      assert Bit(0, 0) == 0;
    }
    forall i | 0 <= i < 2 ensures ledger[i].vals == (if rd[i].0 == 0 then [3.3] else [0.0]) {
      assert ledger[i].vals == Levels(3.3, data[rd[i].0], 1);
    }
    assert ledger[1].time - ledger[0].time == ((11 + 2 + 1) as real) * 0.00000001 - ((11 + 2 + 0) as real) * 0.00000001;
  }

  /**
   * One-bit words, two words, a 10 ns period and a 3.3 V supply, with `1` drawn for address 0
   * and `0` for address 1: whatever the shuffles, two entries one period apart, expecting
   * 3.3 V for address 0 and 0 V for address 1.
   */
  lemma TwoWordScenario(cfg: Config, data: seq<nat>, p1: seq<nat>, p2: seq<nat>)
    requires cfg == Config(2, 1, 1, 3.3, 0.00000001) && data == [1, 0]
    requires IsPermutation(p1, 2) && IsPermutation(p2, 2)
    ensures ValidInputs(cfg, data, p1, p2)
    ensures var ledger := Generate(cfg, data, p1, p2).expct;
      var rd := Reads(cfg, data, p1, p2);
      && |ledger| == 2
      && (forall i :: 0 <= i < 2 ==> ledger[i].vals == (if rd[i].0 == 0 then [3.3] else [0.0]))
      && ledger[1].time - ledger[0].time == 0.00000001
  {
    assert ValidInputs(cfg, data, p1, p2) by {
      assert CeilLog2(2) == 1;
    }
    var rd := Reads(cfg, data, p1, p2);
    var ledger := Generate(cfg, data, p1, p2).expct;
    assert StampedLedger(cfg, ledger, rd) by {
      LedgerEntries(cfg, data, p1, p2);
    }
    assert CoversOnce(rd, 2) && CarriesData(rd, data) by {
      EachAddressOnce(cfg, data, p1, p2);
    }
    ScenarioLedger(cfg, ledger, rd, data);
  }
}
