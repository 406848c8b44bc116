/** What a SimConnect read asks for and gets back: data definitions, the text keys that cache
    them, padding and unpacking, and the chunking pipe client on top. */
module {:induction false} SimReads {
  import opened Options

  /** A variable as a caller names it. */
  datatype Var = Var(name: string, unit: string)

  /** One entry of a data definition; a blank unit is registered as none. */
  datatype Datum = Datum(name: string, unit: Option<string>)

  predicate IsBlank(s: string) {
    forall c <- s :: c in " \t\n\r"
  }

  function DatumOf(v: Var): Datum {
    Datum(v.name, if IsBlank(v.unit) then None else Some(v.unit))
  }

  const FILLER := Datum("SIM ON GROUND", Some("Bool"))

  /** Batch sizes the host has structs for. */
  function Padded(n: nat): nat {
    if n <= 8 then 8 else if n <= 16 then 16 else if n <= 24 then 24 else 32
  }

  /** The layout registered for a batch: the variables in order, then fillers. */
  function BatchLayout(vars: seq<Var>): seq<Datum> {
    seq(Padded(|vars|), i requires 0 <= i => if i < |vars| then DatumOf(vars[i]) else FILLER)
  }

  // ---- cache keys ----

  function Part(d: Datum): string {
    d.name + "\t" + (match d.unit case None => "" case Some(u) => u)
  }

  function Join(parts: seq<string>): string {
    if parts == [] then ""
    else if |parts| == 1 then parts[0]
    else parts[0] + "\n" + Join(parts[1..])
  }

  function Parts(layout: seq<Datum>): seq<string> {
    seq(|layout|, i requires 0 <= i < |layout| => Part(layout[i]))
  }

  function Size(n: nat): string {
    if n == 8 then "8" else if n == 16 then "16" else if n == 24 then "24" else "32"
  }

  /** Key of a batch definition. */
  function BatchKey(layout: seq<Datum>): string {
    Size(|layout|) + ":" + Join(Parts(layout))
  }

  /** A batch of up to 32 variables is registered with the smallest of the sizes 8, 16, 24 and 32 that holds it:
      the variables in order and then a boolean that every aircraft has. */
  lemma BatchIsSmallest(vars: seq<Var>, i: nat)
    requires |vars| <= 32 && i < |BatchLayout(vars)|
    ensures |BatchLayout(vars)| in {8, 16, 24, 32} && |vars| <= |BatchLayout(vars)|
    ensures |BatchLayout(vars)| == 8 || |BatchLayout(vars)| < |vars| + 8
    ensures BatchLayout(vars)[i] == if i < |vars| then DatumOf(vars[i]) else Datum("SIM ON GROUND", Some("Bool"))
  {
  }

  /** A unit of white space only counts as none; any other unit is kept as it is. */
  lemma BlankUnits(v: Var)
    ensures DatumOf(v).name == v.name
    ensures DatumOf(v).unit == None <==> forall i | 0 <= i < |v.unit| :: v.unit[i] in [' ', '\t', '\n', '\r']
    ensures DatumOf(v).unit.Some? ==> DatumOf(v).unit.value == v.unit
  {
    if IsBlank(v.unit) {
      forall i | 0 <= i < |v.unit| ensures v.unit[i] in [' ', '\t', '\n', '\r'] {
        assert v.unit[i] in v.unit;
      }
    }
  }

  predicate Free(s: string, c: char) {
    c !in s
  }

  /** What a single key needs to be readable. */
  predicate TabFree(d: Datum) {
    Free(d.name, '\t') && (d.unit.Some? ==> d.unit.value != "")
  }

  /** Names without tab and newline, units without newline: what the keys need to be readable. */
  predicate CleanDatum(d: Datum) {
    && Free(d.name, '\t') && Free(d.name, '\n')
    && (d.unit.Some? ==> d.unit.value != "" && Free(d.unit.value, '\n'))
  }

  predicate CleanVar(v: Var) {
    Free(v.name, '\t') && Free(v.name, '\n') && Free(v.unit, '\n')
  }

  predicate CleanLayout(layout: seq<Datum>) {
    forall d <- layout :: CleanDatum(d)
  }

  lemma CleanIsClean(v: Var)
    requires CleanVar(v)
    ensures CleanDatum(DatumOf(v))
  {
  }

  /** Two texts that agree up to the first separator. */
  lemma {:induction false} SplitAt(a: string, x: string, b: string, y: string, c: char)
    requires Free(a, c) && Free(b, c) && a + [c] + x == b + [c] + y
    ensures a == b && x == y
  {
    var s, t := a + [c] + x, b + [c] + y;
    assert s[0] == (if a == [] then c else a[0]) && (a != [] ==> a[0] in a);
    assert t[0] == (if b == [] then c else b[0]) && (b != [] ==> b[0] in b);
    if a != [] && b != [] {
      assert s[1..] == a[1..] + [c] + x && t[1..] == b[1..] + [c] + y;
      SplitAt(a[1..], x, b[1..], y, c);
    } else {
      assert s[1..] == x && t[1..] == y;
    }
  }

  /** A single key spells one datum, as long as the names are free of tabs. */
  lemma PartSpells(d: Datum, e: Datum)
    requires TabFree(d) && TabFree(e) && Part(d) == Part(e)
    ensures d == e
  {
    var u := match d.unit case None => "" case Some(x) => x;
    var v := match e.unit case None => "" case Some(x) => x;
    assert Part(d) == d.name + ['\t'] + u && Part(e) == e.name + ['\t'] + v;
    SplitAt(d.name, u, e.name, v, '\t');
  }

  lemma {:induction false} JoinSpells(a: seq<string>, b: seq<string>)
    requires |a| == |b| && (forall s <- a :: Free(s, '\n')) && (forall s <- b :: Free(s, '\n'))
    requires Join(a) == Join(b)
    ensures a == b
  {
    if |a| == 1 {
      assert a == [a[0]] && b == [b[0]];
    } else if |a| > 1 {
      assert a[0] in a && b[0] in b;
      assert Join(a) == a[0] + ['\n'] + Join(a[1..]);
      assert Join(b) == b[0] + ['\n'] + Join(b[1..]);
      SplitAt(a[0], Join(a[1..]), b[0], Join(b[1..]), '\n');
      JoinSpells(a[1..], b[1..]);
      assert a == [a[0]] + a[1..] && b == [b[0]] + b[1..];
    }
  }

  lemma PartClean(d: Datum)
    requires CleanDatum(d)
    ensures Free(Part(d), '\n')
  {
  }

  predicate BatchSize(n: nat) {
    n == 8 || n == 16 || n == 24 || n == 32
  }

  lemma SizeSpells(m: nat, n: nat, x: string, y: string)
    requires BatchSize(m) && BatchSize(n) && Size(m) + ":" + x == Size(n) + ":" + y
    ensures m == n && x == y
  {
    var s, t := Size(m) + ":" + x, Size(n) + ":" + y;
    assert s[0] == Size(m)[0] && t[0] == Size(n)[0];
    assert Size(m) == Size(n);
    assert s[|Size(m)| + 1..] == x && t[|Size(m)| + 1..] == y;
  }

  /** A batch key spells one layout: equal keys mean equal definitions. */
  lemma KeySpells(a: seq<Datum>, b: seq<Datum>)
    requires BatchSize(|a|) && BatchSize(|b|) && CleanLayout(a) && CleanLayout(b)
    requires BatchKey(a) == BatchKey(b)
    ensures a == b
  {
    SizeSpells(|a|, |b|, Join(Parts(a)), Join(Parts(b)));
    forall s <- Parts(a) ensures Free(s, '\n') {
      var i :| 0 <= i < |a| && Parts(a)[i] == s;
      assert a[i] in a;
      PartClean(a[i]);
    }
    forall s <- Parts(b) ensures Free(s, '\n') {
      var i :| 0 <= i < |b| && Parts(b)[i] == s;
      assert b[i] in b;
      PartClean(b[i]);
    }
    JoinSpells(Parts(a), Parts(b));
    forall i | 0 <= i < |a| ensures a[i] == b[i] {
      assert Parts(a)[i] == Parts(b)[i] && a[i] in a && b[i] in b;
      PartSpells(a[i], b[i]);
    }
  }

  /** A tab in a name breaks that: two different variables with one and the same key. */
  lemma TabsCollide()
    ensures var v, w := Var("A\tB", ""), Var("A", "B\t");
            Part(DatumOf(v)) == Part(DatumOf(w)) && DatumOf(v) != DatumOf(w)
  {
    var v, w := Var("A\tB", ""), Var("A", "B\t");
    assert w.unit[0] == 'B' && w.unit[0] in w.unit;
    assert !IsBlank(w.unit);
    assert Part(DatumOf(v)) == "A\tB\t";
  }

  // ---- payloads ----

  /** What arrives for a request: one double, or a struct of doubles. */
  datatype Payload = Single(value: real) | Batch(values: seq<real>) | Other

  /** The value each datum has in the simulator when it answers. */
  type Sample = Datum -> real

  function Reply(layout: seq<Datum>, sample: Sample): seq<real> {
    seq(|layout|, i requires 0 <= i < |layout| => sample(layout[i]))
  }

  /** Unpack a struct of the expected size and keep the values that were asked for. */
  function Unpack(p: Payload, n: nat): Option<seq<real>> {
    if p.Batch? && |p.values| == Padded(n) && n <= |p.values| then Some(p.values[..n]) else None
  }

  /** What a fresh one-variable definition would have returned for each variable. */
  function Direct(vars: seq<Var>, sample: Sample): seq<real> {
    seq(|vars|, i requires 0 <= i < |vars| => sample(DatumOf(vars[i])))
  }

  /** Padding, unpacking and truncating give back the variables asked for, in order. */
  lemma BatchIsDirect(vars: seq<Var>, sample: Sample)
    requires |vars| <= 32
    ensures Unpack(Batch(Reply(BatchLayout(vars), sample)), |vars|) == Some(Direct(vars, sample))
  {
    assert Reply(BatchLayout(vars), sample)[..|vars|] == Direct(vars, sample);
  }

  // ---- the pipe client ----

  const READ_SIMVARS_MAX := 32

  /** The host's answer to the k-th request of a run: values, or none when it failed. */
  type Host = (nat, seq<Var>) -> Option<seq<real>>

  /** A chunk is accepted only with exactly one value per variable. */
  function ReadChunk(host: Host, k: nat, vars: seq<Var>): Option<seq<real>> {
    match host(k, vars)
    case None => None
    case Some(values) => if |values| == |vars| then Some(values) else None
  }

  /** All chunks of at most 32 from chunk number `k` on. */
  function ReadChunks(host: Host, k: nat, vars: seq<Var>): Option<seq<real>>
    decreases |vars|
  {
    if vars == [] then Some([])
    else
      var n := if |vars| <= READ_SIMVARS_MAX then |vars| else READ_SIMVARS_MAX;
      match ReadChunk(host, k, vars[..n])
      case None => None
      case Some(head) =>
        match ReadChunks(host, k + 1, vars[n..])
        case None => None
        case Some(tail) => Some(head + tail)
  }

  /** One turn of the chunk loop. */
  lemma ChunkGoes(host: Host, k: nat, requests: seq<Var>, i: nat, n: nat, out: seq<real>)
    requires i < |requests|
    requires n == if |requests| - i <= READ_SIMVARS_MAX then |requests| - i else READ_SIMVARS_MAX
    ensures var chunk := ReadChunk(host, k, requests[i..i + n]);
            Prepend(out, ReadChunks(host, k, requests[i..]))
            == if chunk.None? then None else Prepend(out + chunk.value, ReadChunks(host, k + 1, requests[i + n..]))
  {
    assert requests[i..][..n] == requests[i..i + n] && requests[i..][n..] == requests[i + n..];
    var chunk := ReadChunk(host, k, requests[i..i + n]);
    var rest := ReadChunks(host, k + 1, requests[i + n..]);
    if chunk.Some? && rest.Some? {
      assert out + (chunk.value + rest.value) == (out + chunk.value) + rest.value;
    }
  }

  /** `readSimVars` of the pipe client: the chunk loop. */
  method ReadSimVars(host: Host, requests: seq<Var>) returns (r: Option<seq<real>>)
    ensures r == ReadChunks(host, 0, requests)
  {
    if requests == [] {
      return Some([]);
    }
    var out: seq<real> := [];
    var i, k := 0, 0;
    ghost var goal := ReadChunks(host, 0, requests);
    assert requests[0..] == requests;
    assert goal.Some? ==> [] + goal.value == goal.value;
    while i < |requests|
      invariant 0 <= i <= |requests| && 0 <= k
      invariant goal == Prepend(out, ReadChunks(host, k, requests[i..]))
    {
      var n := if |requests| - i <= READ_SIMVARS_MAX then |requests| - i else READ_SIMVARS_MAX;
      var chunk := ReadChunk(host, k, requests[i..i + n]);
      ChunkGoes(host, k, requests, i, n, out);
      if chunk.None? {
        return None;
      }
      out := out + chunk.value;
      i, k := i + n, k + 1;
    }
    assert requests[i..] == [] && out + [] == out;
    r := Some(out);
  }

  ghost function Prepend(out: seq<real>, rest: Option<seq<real>>): Option<seq<real>> {
    match rest case None => None case Some(values) => Some(out + values)
  }

  /** A host that may fail, but whose answer to a chunk is what direct reads would have returned at
      that moment. */
  ghost predicate Honest(host: Host, samples: nat -> Sample) {
    forall k, vars :: |vars| <= READ_SIMVARS_MAX && host(k, vars).Some? ==> host(k, vars).value == Direct(vars, samples(k))
  }

  lemma FirstChunk(k: nat, i: nat, n: nat)
    requires i < n <= READ_SIMVARS_MAX
    ensures k + i / READ_SIMVARS_MAX == k
  {
  }

  lemma NextChunk(k: nat, i: nat)
    requires i >= READ_SIMVARS_MAX
    ensures k + 1 + (i - READ_SIMVARS_MAX) / READ_SIMVARS_MAX == k + i / READ_SIMVARS_MAX
  {
  }

  /** Chunking keeps order and completeness: when all chunks succeed, every variable gets the value a
      direct read would have returned when its chunk was answered. */
  lemma {:induction false} ChunksAreDirect(host: Host, samples: nat -> Sample, k: nat, vars: seq<Var>, i: nat)
    requires Honest(host, samples) && i < |vars| && ReadChunks(host, k, vars).Some?
    ensures var r := ReadChunks(host, k, vars).value;
            && |r| == |vars| && r[i] == samples(k + i / READ_SIMVARS_MAX)(DatumOf(vars[i]))
    decreases |vars|
  {
    var n := if |vars| <= READ_SIMVARS_MAX then |vars| else READ_SIMVARS_MAX;
    var head := ReadChunk(host, k, vars[..n]).value;
    assert head == Direct(vars[..n], samples(k));
    var rest := vars[n..];
    if rest == [] {
      FirstChunk(k, i, n);
    } else {
      ChunksAreDirect(host, samples, k + 1, rest, if i < n then 0 else i - n);
      if i < n {
        FirstChunk(k, i, n);
      } else {
        NextChunk(k, i);
      }
    }
  }
}
