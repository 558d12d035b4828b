/** `write` and `check`: fixed edge sequences over the data, address, `web0` and `clk0` sources. */
module Sequencer {
  import opened TimeCursor
  import opened Pwl
  import opened Bits

  /** The generator's settings: word count and size, address width, supply and clock period. */
  datatype Config = Config(numWords: nat, wordSize: nat, addrSize: nat, vdd: real, clkPer: real)

  /** One ledger entry: the sampling time and the expected rail voltage of each output bit. */
  datatype Entry = Entry(time: real, vals: seq<real>)

  /** Everything the operations read and change: cursor, sources and the expectation ledger. */
  datatype State = State(
    time: Time,
    din: seq<Source>,
    addr: seq<Source>,
    csb: Source,
    web: Source,
    clk: Source,
    vddSrc: Source,
    expct: seq<Entry>)

  /** One data source per word bit, one address source per address bit, all holding a point. */
  predicate Shaped(cfg: Config, st: State) {
    && |st.din| == cfg.wordSize
    && |st.addr| == cfg.addrSize
    && (forall k :: 0 <= k < |st.din| ==> Valid(st.din[k]))
    && (forall k :: 0 <= k < |st.addr| ==> Valid(st.addr[k]))
    && Valid(st.csb) && Valid(st.web) && Valid(st.clk) && Valid(st.vddSrc)
  }

  /** `for k in range(n): srcs[k].put(vs[k], t)`. */
  function PutEach(srcs: seq<Source>, vs: seq<real>, t: real): (r: seq<Source>)
    requires |vs| == |srcs|
    requires forall k :: 0 <= k < |srcs| ==> Valid(srcs[k])
    ensures |r| == |srcs|
    ensures forall k :: 0 <= k < |r| ==> Valid(r[k]) && r[k] == Put(srcs[k], vs[k], t)
  {
    seq(|srcs|, k requires 0 <= k < |srcs| => Put(srcs[k], vs[k], t))
  }

  function Zeros(n: nat): (r: seq<real>)
    ensures |r| == n && forall k :: 0 <= k < n ==> r[k] == 0.0
  {
    seq(n, k => 0.0)
  }

  /**
   * The source after two level changes: `v1` at `t1`, then `v2` at `t2`, each with its
   * slew point holding the level before it.
   */
  function TwoChanges(s: Source, v1: real, t1: real, v2: real, t2: real): (r: Source)
    requires Valid(s)
  {
    s.(pts := s.pts + [Point(t1 - s.tTr, Last(s).volt), Point(t1, v1), Point(t2 - s.tTr, v1), Point(t2, v2)])
  }

  /** Times of the three phases of an operation that starts at `t0`. */
  function EdgeTime(cfg: Config, t0: real): (t: real) { t0 + 0.1 * cfg.clkPer }
  function ReleaseTime(cfg: Config, t0: real): (t: real) { t0 + 0.6 * cfg.clkPer }

  /**
   * `write(addr, value)`: drive data, address and `web0` low at the cursor; raise the clock
   * `0.1*clk_per` later; `0.5*clk_per` after that release data and address to 0, raise `web0`
   * and drop the clock; then wait `0.4*clk_per`.
   */
  function Write(cfg: Config, st: State, addr: nat, value: nat): (r: State)
    requires Shaped(cfg, st)
    ensures Shaped(cfg, r)
    ensures r.time.t == st.time.t + cfg.clkPer
    ensures r.expct == st.expct
    ensures r.csb == st.csb && r.vddSrc == st.vddSrc
    ensures forall k :: 0 <= k < cfg.wordSize ==>
      r.din[k] == TwoChanges(st.din[k], Levels(cfg.vdd, value, cfg.wordSize)[k], st.time.t,
                             0.0, ReleaseTime(cfg, st.time.t))
    ensures forall k :: 0 <= k < cfg.addrSize ==>
      r.addr[k] == TwoChanges(st.addr[k], Levels(cfg.vdd, addr, cfg.addrSize)[k], st.time.t,
                              0.0, ReleaseTime(cfg, st.time.t))
    ensures r.web == TwoChanges(st.web, 0.0, st.time.t, cfg.vdd, ReleaseTime(cfg, st.time.t))
    ensures r.clk == TwoChanges(st.clk, cfg.vdd, EdgeTime(cfg, st.time.t), 0.0, ReleaseTime(cfg, st.time.t))
  {
    // setup data, address and write enable
    var t0 := st.time;
    var din1 := PutEach(st.din, Levels(cfg.vdd, value, cfg.wordSize), t0.t);
    var addr1 := PutEach(st.addr, Levels(cfg.vdd, addr, cfg.addrSize), t0.t);
    var web1 := Put(st.web, 0.0, t0.t);
    var t1 := Incr(t0, 0.1 * cfg.clkPer);
    // rising clock edge, then hold
    var clk1 := Put(st.clk, cfg.vdd, t1.t);
    var t2 := Incr(t1, 0.5 * cfg.clkPer);
    var din2 := PutEach(din1, Zeros(cfg.wordSize), t2.t);
    var addr2 := PutEach(addr1, Zeros(cfg.addrSize), t2.t);
    var web2 := Put(web1, cfg.vdd, t2.t);
    // falling clock edge, then recovery
    var clk2 := Put(clk1, 0.0, t2.t);
    var t3 := Incr(t2, 0.4 * cfg.clkPer);
    st.(time := t3, din := din2, addr := addr2, web := web2, clk := clk2)
  }

  /**
   * `check(addr, value)`: drive the address and keep `web0` high; raise the clock `0.1*clk_per`
   * later; `0.5*clk_per` after that drive the address back to 0, keep `web0` high and drop the
   * clock; wait `0.4*clk_per`; only then record the expected output bits at the cursor.
   */
  function Check(cfg: Config, st: State, addr: nat, value: nat): (r: State)
    requires Shaped(cfg, st)
    ensures Shaped(cfg, r)
    ensures r.time.t == st.time.t + cfg.clkPer
    ensures r.expct == st.expct + [Entry(st.time.t + cfg.clkPer, Levels(cfg.vdd, value, cfg.wordSize))]
    ensures r.din == st.din && r.csb == st.csb && r.vddSrc == st.vddSrc
    ensures forall k :: 0 <= k < cfg.addrSize ==>
      r.addr[k] == TwoChanges(st.addr[k], Levels(cfg.vdd, addr, cfg.addrSize)[k], st.time.t,
                              0.0, ReleaseTime(cfg, st.time.t))
    ensures r.web == TwoChanges(st.web, cfg.vdd, st.time.t, cfg.vdd, ReleaseTime(cfg, st.time.t))
    ensures r.clk == TwoChanges(st.clk, cfg.vdd, EdgeTime(cfg, st.time.t), 0.0, ReleaseTime(cfg, st.time.t))
  {
    // setup address and write enable
    var t0 := st.time;
    var addr1 := PutEach(st.addr, Levels(cfg.vdd, addr, cfg.addrSize), t0.t);
    var web1 := Put(st.web, cfg.vdd, t0.t);
    var t1 := Incr(t0, 0.1 * cfg.clkPer);
    // rising clock edge, then hold
    var clk1 := Put(st.clk, cfg.vdd, t1.t);
    var t2 := Incr(t1, 0.5 * cfg.clkPer);
    var addr2 := PutEach(addr1, Zeros(cfg.addrSize), t2.t);
    var web2 := Put(web1, cfg.vdd, t2.t);
    // falling clock edge, then recovery
    var clk2 := Put(clk1, 0.0, t2.t);
    var t3 := Incr(t2, 0.4 * cfg.clkPer);
    // sample the outputs at the cursor reached after the recovery wait
    var entry := Entry(t3.t, Levels(cfg.vdd, value, cfg.wordSize));
    st.(time := t3, addr := addr2, web := web2, clk := clk2, expct := st.expct + [entry])
  }

  /** The three waits of one operation: setup, clock high, recovery. */
  function Phases(cfg: Config): (r: seq<real>)
    ensures |r| == 3
    ensures Total(r) == cfg.clkPer
    ensures cfg.clkPer >= 0.0 ==> forall i :: 0 <= i < |r| ==> r[i] >= 0.0
  {
    var r := [0.1 * cfg.clkPer, 0.5 * cfg.clkPer, 0.4 * cfg.clkPer];
    assert r[..2][..1] == r[..1] && r[..1][..0] == [];
    assert Total(r[..1]) == 0.1 * cfg.clkPer;
    assert Total(r[..2]) == 0.6 * cfg.clkPer;
    r
  }

  /**
   * Both operations move the cursor through the three waits in turn: the clock rises after
   * the first, the data and address are released after the second, and the operation ends
   * after the third, one period after it began.
   */
  lemma OperationCursor(cfg: Config, st: State, addr: nat, value: nat)
    requires Shaped(cfg, st)
    ensures var ph := Phases(cfg);
      && IncrAll(st.time, ph[..1]).t == EdgeTime(cfg, st.time.t)
      && IncrAll(st.time, ph[..2]).t == ReleaseTime(cfg, st.time.t)
      && Write(cfg, st, addr, value).time == IncrAll(st.time, ph)
      && Check(cfg, st, addr, value).time == IncrAll(st.time, ph)
  {
    var ph := Phases(cfg);
    assert ph[..2][..1] == ph[..1] && ph[..3][..2] == ph[..2] && ph[..3] == ph;
    assert ph[..1][..0] == [];
    IncrAllTotal(st.time, ph);
  }

  /** A source whose points start at `(0, 0)`, are ordered, and end no later than `h`. */
  predicate Ready(cfg: Config, s: Source, h: real) {
    && Valid(s)
    && s.pts[0] == Point(0.0, 0.0)
    && Ordered(s.pts)
    && Last(s).time <= h
    && 0.0 <= s.tTr <= 0.4 * cfg.clkPer
  }

  /**
   * Between operations every source's last point lies at least `0.4*clk_per` before the
   * cursor, which is the slack the next level change needs when `t_tr <= 0.4*clk_per`.
   */
  predicate WellTimed(cfg: Config, st: State) {
    var h := st.time.t - 0.4 * cfg.clkPer;
    && Shaped(cfg, st)
    && (forall k :: 0 <= k < |st.din| ==> Ready(cfg, st.din[k], h))
    && (forall k :: 0 <= k < |st.addr| ==> Ready(cfg, st.addr[k], h))
    && Ready(cfg, st.csb, h) && Ready(cfg, st.web, h) && Ready(cfg, st.clk, h) && Ready(cfg, st.vddSrc, h)
  }

  /** Two level changes, each at least the slew after the previous point, keep a source ordered. */
  lemma TwoChangesReady(cfg: Config, s: Source, h: real, v1: real, t1: real, v2: real, t2: real)
    requires Ready(cfg, s, h)
    requires h <= t1 - s.tTr && t1 <= t2 - s.tTr
    ensures Ready(cfg, TwoChanges(s, v1, t1, v2, t2), t2)
  {
    var p := Put(s, v1, t1);
    PutOrdered(s, v1, t1);
    PutOrdered(p, v2, t2);
    assert TwoChanges(s, v1, t1, v2, t2) == Put(p, v2, t2);
    assert p.pts[0] == p.pts[..|s.pts|][0];
  }

  lemma ReadyLater(cfg: Config, s: Source, h: real, h': real)
    requires Ready(cfg, s, h) && h <= h'
    ensures Ready(cfg, s, h')
  {
  }

  /** A `write` between well-timed states keeps every source's points ordered. */
  lemma {:induction false} WriteWellTimed(cfg: Config, st: State, addr: nat, value: nat)
    requires WellTimed(cfg, st)
    ensures WellTimed(cfg, Write(cfg, st, addr, value))
  {
    var r := Write(cfg, st, addr, value);
    var t0 := st.time.t;
    var h := t0 - 0.4 * cfg.clkPer;
    var rel := ReleaseTime(cfg, t0);
    assert r.time.t - 0.4 * cfg.clkPer == rel;
    forall k | 0 <= k < |r.din| ensures Ready(cfg, r.din[k], rel) {
      TwoChangesReady(cfg, st.din[k], h, Levels(cfg.vdd, value, cfg.wordSize)[k], t0, 0.0, rel);
    }
    forall k | 0 <= k < |r.addr| ensures Ready(cfg, r.addr[k], rel) {
      TwoChangesReady(cfg, st.addr[k], h, Levels(cfg.vdd, addr, cfg.addrSize)[k], t0, 0.0, rel);
    }
    TwoChangesReady(cfg, st.web, h, 0.0, t0, cfg.vdd, rel);
    TwoChangesReady(cfg, st.clk, h, cfg.vdd, EdgeTime(cfg, t0), 0.0, rel);
    ReadyLater(cfg, st.csb, h, rel);
    ReadyLater(cfg, st.vddSrc, h, rel);
  }

  /** A `check` between well-timed states keeps every source's points ordered. */
  lemma {:induction false} CheckWellTimed(cfg: Config, st: State, addr: nat, value: nat)
    requires WellTimed(cfg, st)
    ensures WellTimed(cfg, Check(cfg, st, addr, value))
  {
    var r := Check(cfg, st, addr, value);
    var t0 := st.time.t;
    var h := t0 - 0.4 * cfg.clkPer;
    var rel := ReleaseTime(cfg, t0);
    assert r.time.t - 0.4 * cfg.clkPer == rel;
    forall k | 0 <= k < |r.din| ensures Ready(cfg, r.din[k], rel) {
      ReadyLater(cfg, st.din[k], h, rel);
    }
    forall k | 0 <= k < |r.addr| ensures Ready(cfg, r.addr[k], rel) {
      TwoChangesReady(cfg, st.addr[k], h, Levels(cfg.vdd, addr, cfg.addrSize)[k], t0, 0.0, rel);
    }
    TwoChangesReady(cfg, st.web, h, cfg.vdd, t0, cfg.vdd, rel);
    TwoChangesReady(cfg, st.clk, h, cfg.vdd, EdgeTime(cfg, t0), 0.0, rel);
    ReadyLater(cfg, st.csb, h, rel);
    ReadyLater(cfg, st.vddSrc, h, rel);
  }

  /**
   * During a `write`, from the cursor until the release, data line `k` sits at bit `k` of
   * `value`; reading the data lines back off the rails gives `value` when it fits the word.
   */
  lemma WriteDrivesValue(cfg: Config, st: State, addr: nat, value: nat)
    requires Shaped(cfg, st)
    requires cfg.vdd != 0.0 && value < Pow2(cfg.wordSize)
    ensures var r := Write(cfg, st, addr, value);
      DecodeLevels(seq(cfg.wordSize, k requires 0 <= k < cfg.wordSize => r.din[k].pts[|st.din[k].pts| + 1].volt),
                   cfg.vdd) == value
  {
    var r := Write(cfg, st, addr, value);
    var driven := seq(cfg.wordSize, k requires 0 <= k < cfg.wordSize => r.din[k].pts[|st.din[k].pts| + 1].volt);
    assert driven == Levels(cfg.vdd, value, cfg.wordSize);
    DecodeLevelsRoundTrip(cfg.vdd, value, cfg.wordSize);
  }

  /** During a `write` or a `check`, the address lines read back as the address when it fits. */
  lemma AddressDriven(cfg: Config, st: State, addr: nat, value: nat)
    requires Shaped(cfg, st)
    requires cfg.vdd != 0.0 && addr < Pow2(cfg.addrSize)
    ensures var r := Write(cfg, st, addr, value);
      DecodeLevels(seq(cfg.addrSize, k requires 0 <= k < cfg.addrSize => r.addr[k].pts[|st.addr[k].pts| + 1].volt),
                   cfg.vdd) == addr
    ensures var r := Check(cfg, st, addr, value);
      DecodeLevels(seq(cfg.addrSize, k requires 0 <= k < cfg.addrSize => r.addr[k].pts[|st.addr[k].pts| + 1].volt),
                   cfg.vdd) == addr
  {
    var w := Write(cfg, st, addr, value);
    var c := Check(cfg, st, addr, value);
    assert seq(cfg.addrSize, k requires 0 <= k < cfg.addrSize => w.addr[k].pts[|st.addr[k].pts| + 1].volt)
        == Levels(cfg.vdd, addr, cfg.addrSize);
    assert seq(cfg.addrSize, k requires 0 <= k < cfg.addrSize => c.addr[k].pts[|st.addr[k].pts| + 1].volt)
        == Levels(cfg.vdd, addr, cfg.addrSize);
    DecodeLevelsRoundTrip(cfg.vdd, addr, cfg.addrSize);
  }
}
