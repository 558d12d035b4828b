/**
 * The stimulus program: configuration, port list, power-up settle, writes in one shuffled
 * order, checks in a second shuffled order, tail settle, and rendering of every source.
 * The random choices are inputs: the data words and the two shuffles.
 */
module Preprocess {
  import opened Wrappers
  import opened Decimal
  import opened TimeCursor
  import opened Pwl
  import opened Bits
  import opened Sequencer

  /** `int(ceil(log2(num_words)))`; `log2` raises for a word count that is not positive. */
  function AddrSize(numWords: int): (r: Result<nat>)
    ensures r.Err? <==> numWords <= 0
    ensures r.Ok? ==> Pow2(r.value) >= numWords
    ensures r.Ok? && r.value > 0 ==> Pow2(r.value - 1) < numWords
    ensures r.Ok? ==> (r.value == 0 <==> numWords == 1)
  {
    if numWords <= 0 then Err("math domain error") else Ok(CeilLog2(numWords))
  }

  /** The settings read from the command line, with the address width derived from the word count. */
  function Configure(numWords: int, wordSize: nat, vdd: real, clkPer: real): (r: Result<Config>)
    ensures r.Err? <==> numWords <= 0
    ensures r.Ok? ==> ValidConfig(r.value)
    ensures r.Ok? ==> r.value.numWords == numWords && r.value.wordSize == wordSize
                      && r.value.vdd == vdd && r.value.clkPer == clkPer
  {
    match AddrSize(numWords)
    case Err(e) => Err(e)
    case Ok(a) => Ok(Config(numWords, wordSize, a, vdd, clkPer))
  }

  predicate ValidConfig(cfg: Config) {
    cfg.numWords >= 1 && cfg.addrSize == CeilLog2(cfg.numWords)
  }

  /** `f'{base}[{k}]'`, the name of bit `k` of a bus port. */
  function BusPort(base: string, k: nat): (r: string)
    ensures |r| == |base| + |NatToString(k)| + 2
    ensures r[|base|] == '[' && r[|r| - 1] == ']'
  {
    base + "[" + NatToString(k) + "]"
  }

  /** `f'{base}_{k}'`, the name of the source that drives bit `k` of a bus. */
  function BusSource(base: string, k: nat): (r: string)
    ensures |r| == |base| + |NatToString(k)| + 1
    ensures r[|base|] == '_'
  {
    base + "_" + NatToString(k)
  }

  /** Different bits of one bus have different port names. */
  lemma BusPortInjective(base: string, j: nat, k: nat)
    ensures BusPort(base, j) == BusPort(base, k) <==> j == k
  {
    var a, b := BusPort(base, j), BusPort(base, k);
    assert a[|base| + 1..|a| - 1] == NatToString(j);
    assert b[|base| + 1..|b| - 1] == NatToString(k);
    NatToStringInjective(j, k);
  }

  /** Different bits of one bus are driven by differently named sources. */
  lemma BusSourceInjective(base: string, j: nat, k: nat)
    ensures BusSource(base, j) == BusSource(base, k) <==> j == k
  {
    var a, b := BusSource(base, j), BusSource(base, k);
    assert a[|base| + 1..] == NatToString(j);
    assert b[|base| + 1..] == NatToString(k);
    NatToStringInjective(j, k);
  }

  /** `conn_ports`: data in, address, `csb0 web0 clk0`, data out, `vdd` and ground `0`. */
  function ConnPorts(cfg: Config): (r: seq<string>)
    ensures |r| == 2 * cfg.wordSize + cfg.addrSize + 5
  {
    seq(cfg.wordSize, k requires 0 <= k => BusPort("din0", k))
    + seq(cfg.addrSize, k requires 0 <= k => BusPort("addr0", k))
    + ["csb0", "web0", "clk0"]
    + seq(cfg.wordSize, k requires 0 <= k => BusPort("dout0", k))
    + ["vdd", "0"]
  }

  /** `probe_ports`: the voltage of each data output. */
  function ProbePorts(cfg: Config): (r: seq<string>)
    ensures |r| == cfg.wordSize
  {
    seq(cfg.wordSize, k requires 0 <= k => "V(" + BusPort("dout0", k) + ")")
  }

  /** All sources freshly made, the cursor at zero and the ledger empty. */
  function Initial(cfg: Config): (st: State)
    ensures Shaped(cfg, st)
  {
    State(
      Start(),
      seq(cfg.wordSize, k requires 0 <= k => NewSource(BusSource("din0", k), Some(BusPort("din0", k)), DefaultTtr)),
      seq(cfg.addrSize, k requires 0 <= k => NewSource(BusSource("addr0", k), Some(BusPort("addr0", k)), DefaultTtr)),
      NewSource("csb0", None, DefaultTtr),
      NewSource("web0", None, DefaultTtr),
      NewSource("clk0", None, DefaultTtr),
      NewSource("vdd", None, DefaultTtr),
      [])
  }

  /** Wait five periods at zero, raise the supply and `web0`, wait five more periods. */
  function Settle(cfg: Config, st: State): (r: State)
    requires Shaped(cfg, st)
    ensures Shaped(cfg, r)
    ensures r.time.t == st.time.t + 10.0 * cfg.clkPer
    ensures r.vddSrc == Put(st.vddSrc, cfg.vdd, st.time.t + 5.0 * cfg.clkPer)
    ensures r.web == Put(st.web, cfg.vdd, st.time.t + 5.0 * cfg.clkPer)
    ensures r.din == st.din && r.addr == st.addr && r.csb == st.csb && r.clk == st.clk
    ensures r.expct == st.expct
  {
    var t1 := Incr(st.time, 5.0 * cfg.clkPer);
    var vdd1 := Put(st.vddSrc, cfg.vdd, t1.t);
    var web1 := Put(st.web, cfg.vdd, t1.t);
    var t2 := Incr(t1, 5.0 * cfg.clkPer);
    st.(time := t2, vddSrc := vdd1, web := web1)
  }

  /** `for addr, data in ops: write(addr, data)`. */
  function WriteAll(cfg: Config, st: State, ops: seq<(nat, nat)>): (r: State)
    requires Shaped(cfg, st)
    ensures Shaped(cfg, r)
    decreases |ops|
  {
    if |ops| == 0 then st
    else
      var op := ops[|ops| - 1];
      Write(cfg, WriteAll(cfg, st, ops[..|ops| - 1]), op.0, op.1)
  }

  /** `for addr, data in ops: check(addr, data)`. */
  function CheckAll(cfg: Config, st: State, ops: seq<(nat, nat)>): (r: State)
    requires Shaped(cfg, st)
    ensures Shaped(cfg, r)
    decreases |ops|
  {
    if |ops| == 0 then st
    else
      var op := ops[|ops| - 1];
      Check(cfg, CheckAll(cfg, st, ops[..|ops| - 1]), op.0, op.1)
  }

  /** `stim`: each address paired with its data word, in address order. */
  function Stimulus(data: seq<nat>): (r: seq<(nat, nat)>)
    ensures |r| == |data|
    ensures forall k :: 0 <= k < |r| ==> r[k] == (k, data[k])
  {
    seq(|data|, k requires 0 <= k < |data| => (k, data[k]))
  }

  /** `p` is an ordering of `0..n-1`: every index once. */
  predicate IsPermutation(p: seq<nat>, n: nat) {
    && |p| == n
    && (forall i :: 0 <= i < n ==> p[i] < n)
    && (forall i, j :: 0 <= i < j < n ==> p[i] != p[j])
    && (forall k :: 0 <= k < n ==> k in p)
  }

  /** `p` without its last position, the indices above the one placed there moved down by one. */
  function DropLast(p: seq<nat>): (q: seq<nat>)
    requires |p| > 0
    ensures |q| == |p| - 1
  {
    var k := p[|p| - 1];
    seq(|p| - 1, i requires 0 <= i < |p| - 1 => if p[i] <= k then p[i] else p[i] - 1)
  }

  lemma DropLastPermutation(p: seq<nat>, n: nat)
    requires IsPermutation(p, n) && n > 0
    ensures IsPermutation(DropLast(p), n - 1)
  {
    var k := p[n - 1];
    var q := DropLast(p);
    forall i | 0 <= i < n - 1 ensures q[i] < n - 1 {
      assert p[i] != p[n - 1];
    }
    forall i, j | 0 <= i < j < n - 1 ensures q[i] != q[j] {
      assert p[i] != p[n - 1] && p[j] != p[n - 1] && p[i] != p[j];
    }
    forall m | 0 <= m < n - 1 ensures m in q {
      var m' := if m < k then m else m + 1;
      assert m' in p;
      var i :| 0 <= i < n && p[i] == m';
      assert i != n - 1;
      assert q[i] == m;
    }
  }

  /** The arrangement of `s` by `p`, before the last element, is `s` without that element arranged by `DropLast(p)`. */
  lemma DropLastArranged<T>(s: seq<T>, p: seq<nat>)
    requires IsPermutation(p, |s|) && |s| > 0
    ensures var k := p[|s| - 1];
      var s' := s[..k] + s[k + 1..];
      && IsPermutation(DropLast(p), |s'|)
      && seq(|s|, i requires 0 <= i < |s| => s[p[i]])
         == seq(|s'|, i requires 0 <= i < |s'| => s'[DropLast(p)[i]]) + [s[k]]
  {
    var n := |s|;
    var k := p[n - 1];
    var s' := s[..k] + s[k + 1..];
    DropLastPermutation(p, n);
    var r := seq(n, i requires 0 <= i < n => s[p[i]]);
    var r' := seq(|s'|, i requires 0 <= i < |s'| => s'[DropLast(p)[i]]);
    forall i | 0 <= i < n - 1 ensures r'[i] == r[i] {
      assert p[i] != p[n - 1];
    }
    assert r == r' + [s[k]];
  }

  /**
   * Arranging `s` by a permutation keeps every element as often as it was: the induction
   * takes the element placed last out of both the input and the arrangement.
   */
  lemma {:induction false} PermutedMultiset<T>(s: seq<T>, p: seq<nat>)
    requires IsPermutation(p, |s|)
    ensures multiset(seq(|s|, i requires 0 <= i < |s| => s[p[i]])) == multiset(s)
    decreases |s|
  {
    if |s| > 0 {
      var k := p[|s| - 1];
      var s' := s[..k] + s[k + 1..];
      DropLastArranged(s, p);
      PermutedMultiset(s', DropLast(p));
      assert s == s[..k] + [s[k]] + s[k + 1..];
    }
  }

  /** The list after `shuffle` chose the ordering `p`: position `i` holds element `p[i]`. */
  function Shuffle<T(==)>(s: seq<T>, p: seq<nat>): (r: seq<T>)
    requires IsPermutation(p, |s|)
    ensures |r| == |s|
    ensures forall i :: 0 <= i < |s| ==> r[i] == s[p[i]]
    ensures multiset(r) == multiset(s)
  {
    PermutedMultiset(s, p);
    seq(|s|, i requires 0 <= i < |s| => s[p[i]])
  }

  /** The single ordering that stands for `p1` followed by `p2`. */
  function Compose(p1: seq<nat>, p2: seq<nat>, n: nat): (q: seq<nat>)
    requires IsPermutation(p1, n) && IsPermutation(p2, n)
    ensures |q| == n
    ensures forall i :: 0 <= i < n ==> q[i] == p1[p2[i]]
  {
    seq(n, i requires 0 <= i < n => p1[p2[i]])
  }

  /** What the random source supplies: one word below `2**word_size` per address, two orderings. */
  predicate ValidInputs(cfg: Config, data: seq<nat>, p1: seq<nat>, p2: seq<nat>) {
    && ValidConfig(cfg)
    && |data| == cfg.numWords
    && (forall k :: 0 <= k < |data| ==> data[k] < Pow2(cfg.wordSize))
    && IsPermutation(p1, cfg.numWords)
    && IsPermutation(p2, cfg.numWords)
  }

  /** The order of the writes: `stim` after the first shuffle. */
  function Writes(cfg: Config, data: seq<nat>, p1: seq<nat>, p2: seq<nat>): (r: seq<(nat, nat)>)
    requires ValidInputs(cfg, data, p1, p2)
    ensures |r| == cfg.numWords
    ensures forall i :: 0 <= i < |r| ==> r[i] == (p1[i], data[p1[i]])
  {
    Shuffle(Stimulus(data), p1)
  }

  /** The order of the checks: the already shuffled `stim` shuffled again. */
  function Reads(cfg: Config, data: seq<nat>, p1: seq<nat>, p2: seq<nat>): (r: seq<(nat, nat)>)
    requires ValidInputs(cfg, data, p1, p2)
    ensures |r| == cfg.numWords
    ensures forall i :: 0 <= i < |r| ==> r[i] == (p1[p2[i]], data[p1[p2[i]]])
  {
    Shuffle(Writes(cfg, data, p1, p2), p2)
  }

  function AfterSettle(cfg: Config): (r: State) {
    Settle(cfg, Initial(cfg))
  }

  function AfterWrites(cfg: Config, data: seq<nat>, p1: seq<nat>, p2: seq<nat>): (r: State)
    requires ValidInputs(cfg, data, p1, p2)
  {
    WriteAll(cfg, AfterSettle(cfg), Writes(cfg, data, p1, p2))
  }

  function AfterChecks(cfg: Config, data: seq<nat>, p1: seq<nat>, p2: seq<nat>): (r: State)
    requires ValidInputs(cfg, data, p1, p2)
  {
    CheckAll(cfg, AfterWrites(cfg, data, p1, p2), Reads(cfg, data, p1, p2))
  }

  /** The state at the end of the program, after the tail settle of five periods. */
  function Final(cfg: Config, data: seq<nat>, p1: seq<nat>, p2: seq<nat>): (r: State)
    requires ValidInputs(cfg, data, p1, p2)
    ensures Shaped(cfg, r)
  {
    var st := AfterChecks(cfg, data, p1, p2);
    st.(time := Incr(st.time, 5.0 * cfg.clkPer))
  }

  /** `[s.compile(t) for s in srcs]`, keeping the rendered part. */
  function RenderEach(srcs: seq<Source>, t: real): (r: seq<SourceSpec>)
    requires forall k :: 0 <= k < |srcs| ==> Valid(srcs[k])
    ensures |r| == |srcs|
    ensures forall k :: 0 <= k < |r| ==> r[k] == Compile(srcs[k], t).spec
  {
    seq(|srcs|, k requires 0 <= k < |srcs| => Compile(srcs[k], t).spec)
  }

  /** The sources in the order the netlist lists them: supply, `csb0`, `web0`, `clk0`, data, address. */
  function Render(cfg: Config, st: State): (r: seq<SourceSpec>)
    requires Shaped(cfg, st)
    ensures |r| == 4 + cfg.wordSize + cfg.addrSize
  {
    [Compile(st.vddSrc, st.time.t).spec, Compile(st.csb, st.time.t).spec,
     Compile(st.web, st.time.t).spec, Compile(st.clk, st.time.t).spec]
    + RenderEach(st.din, st.time.t) + RenderEach(st.addr, st.time.t)
  }

  /** The generated stimulus: ports, probes, rendered sources, simulated duration and ledger. */
  datatype Program = Program(
    connPorts: seq<string>,
    probePorts: seq<string>,
    sources: seq<SourceSpec>,
    endTime: real,
    expct: seq<Entry>)

  function Generate(cfg: Config, data: seq<nat>, p1: seq<nat>, p2: seq<nat>): (r: Program)
    requires ValidInputs(cfg, data, p1, p2)
    ensures r.connPorts == ConnPorts(cfg) && r.probePorts == ProbePorts(cfg)
    ensures |r.sources| == 4 + cfg.wordSize + cfg.addrSize
  {
    var st := Final(cfg, data, p1, p2);
    Program(ConnPorts(cfg), ProbePorts(cfg), Render(cfg, st), st.time.t, st.expct)
  }
}
