/** MapReduce, distributed and sequential: bucketing, shuffling, sorting, grouping, reducing. */
module MapReduce {

  datatype KeyValue = KeyValue(key: string, value: string)

  /** A line of reduce output before formatting. */
  type Line = (string, string)

  type MapF = (string, string) -> seq<KeyValue>
  type ReduceF = (string, seq<string>) -> string
  type Files = map<(nat, nat), seq<KeyValue>>

  // ----- sorting by key -----

  /** Lexicographic order on strings. */
  predicate Leq(a: string, b: string) {
    a == [] || (b != [] && (a[0] < b[0] || (a[0] == b[0] && Leq(a[1..], b[1..]))))
  }

  lemma {:induction false} LeqTotal(a: string, b: string)
    ensures Leq(a, b) || Leq(b, a)
    ensures Leq(a, b) && Leq(b, a) ==> a == b
  {
    if a == [] || b == [] {
    } else {
      LeqTotal(a[1..], b[1..]);
      assert a == [a[0]] + a[1..] && b == [b[0]] + b[1..];
    }
  }

  lemma {:induction false} LeqTrans(a: string, b: string, c: string)
    requires Leq(a, b) && Leq(b, c)
    ensures Leq(a, c)
  {
    if a == [] || !(a[0] == b[0] == c[0]) {
    } else {
      LeqTrans(a[1..], b[1..], c[1..]);
    }
  }

  ghost predicate Sorted(s: seq<KeyValue>) {
    forall i, j :: 0 <= i < j < |s| ==> Leq(s[i].key, s[j].key)
  }

  /** What sort.Slice and sort.Sort promise: equal keys may come in any order. */
  ghost predicate SortedCopy(s: seq<KeyValue>, kvs: seq<KeyValue>) {
    Sorted(s) && multiset(s) == multiset(kvs)
  }

  method SortByKey(kvs: seq<KeyValue>) returns (s: seq<KeyValue>)
    ensures SortedCopy(s, kvs)
  {
    s := [];
    for n := 0 to |kvs|
      invariant Sorted(s) && multiset(s) == multiset(kvs[..n])
    {
      assert kvs[..n + 1] == kvs[..n] + [kvs[n]];
      s := Insert(s, kvs[n]);
    }
    assert kvs[..|kvs|] == kvs;
  }

  method Insert(s: seq<KeyValue>, x: KeyValue) returns (r: seq<KeyValue>)
    requires Sorted(s)
    ensures Sorted(r) && multiset(r) == multiset(s) + multiset{x}
  {
    var i := 0;
    while i < |s| && Leq(s[i].key, x.key)
      invariant i <= |s| && forall k :: 0 <= k < i ==> Leq(s[k].key, x.key)
    {
      i := i + 1;
    }
    r := s[..i] + [x] + s[i..];
    assert s == s[..i] + s[i..];
    forall k | i <= k < |s| ensures Leq(x.key, s[k].key) {
      LeqTotal(s[i].key, x.key);
      if i < k { LeqTrans(x.key, s[i].key, s[k].key); }
    }
  }

  // ----- grouping -----

  function Values(s: seq<KeyValue>): seq<string> {
    seq(|s|, i requires 0 <= i < |s| => s[i].value)
  }

  /** Length of the run of equal keys s starts with. */
  function Run(s: seq<KeyValue>): (j: nat)
    requires |s| > 0
    ensures 0 < j <= |s| && forall k :: 0 <= k < j ==> s[k].key == s[0].key
    ensures j < |s| ==> s[j].key != s[0].key
    decreases |s|
  {
    if |s| == 1 || s[1].key != s[0].key then 1 else 1 + Run(s[1..])
  }

  /** One line for each run. */
  function Grouped(s: seq<KeyValue>, reducef: ReduceF): seq<Line>
    decreases |s|
  {
    if s == [] then []
    else
      var j := Run(s);
      [(s[0].key, reducef(s[0].key, Values(s[..j])))] + Grouped(s[j..], reducef)
  }

  function Format(l: Line): string { l.0 + " " + l.1 + "\n" }

  function Lines(ls: seq<Line>): seq<string> {
    seq(|ls|, i requires 0 <= i < |ls| => Format(ls[i]))
  }

  /** The i/j loop both programs share. */
  method Group(s: seq<KeyValue>, reducef: ReduceF) returns (out: seq<string>)
    ensures out == Lines(Grouped(s, reducef))
  {
    hide Grouped, Lines;
    out := [];
    var i := 0;
    ghost var done: seq<Line> := [];
    NoLines(s, reducef);
    while i < |s|
      invariant i <= |s| && out == Lines(done)
      invariant done + Grouped(s[i..], reducef) == Grouped(s, reducef)
    {
      var j := RunFrom(s, i);
      var values := Collect(s, i, j);
      var line := (s[i].key, reducef(s[i].key, values));
      GroupedNext(s, i, j, reducef);
      LinesConcat(done, [line]);
      out := out + [Format(line)];
      done := done + [line];
      i := j;
    }
    assert s[|s|..] == [];
    NoLines([], reducef);
    assert done + [] == done;
  }

  method Collect(s: seq<KeyValue>, i: nat, j: nat) returns (values: seq<string>)
    requires i <= j <= |s|
    ensures values == Values(s[i..j])
  {
    values := [];
    for k := i to j
      invariant values == Values(s[i..k])
    {
      values := values + [s[k].value];
    }
  }

  lemma NoLines(s: seq<KeyValue>, reducef: ReduceF)
    ensures Lines([]) == [] && Grouped([], reducef) == [] && [] + Grouped(s[0..], reducef) == Grouped(s, reducef)
  {
    assert s[0..] == s;
  }

  lemma GroupedNext(s: seq<KeyValue>, i: nat, j: nat, reducef: ReduceF)
    requires i < j <= |s| && j - i == Run(s[i..])
    ensures Grouped(s[i..], reducef) == [(s[i].key, reducef(s[i].key, Values(s[i..j])))] + Grouped(s[j..], reducef)
  {
    assert s[i..][..j - i] == s[i..j] && s[i..][j - i..] == s[j..];
  }

  lemma LinesConcat(a: seq<Line>, b: seq<Line>)
    ensures Lines(a + b) == Lines(a) + Lines(b)
    ensures forall l: Line :: Lines([l]) == [Format(l)]
  {
  }

  method RunFrom(s: seq<KeyValue>, i: nat) returns (j: nat)
    requires i < |s|
    ensures i < j <= |s| && j - i == Run(s[i..])
  {
    j := i + 1;
    while j < |s| && s[j].key == s[i].key
      invariant i < j <= |s| && forall k :: i <= k < j ==> s[k].key == s[i].key
    {
      j := j + 1;
    }
    RunUnique(s[i..], j - i);
  }

  lemma RunUnique(s: seq<KeyValue>, j: nat)
    requires 0 < j <= |s| && (forall k :: 0 <= k < j ==> s[k].key == s[0].key) && (j < |s| ==> s[j].key != s[0].key)
    ensures Run(s) == j
  {
  }

  // ----- what the lines mean -----

  /** The values emitted for key k, in order. */
  ghost function ValuesOf(s: seq<KeyValue>, k: string): seq<string> {
    if s == [] then []
    else (if s[0].key == k then [s[0].value] else []) + ValuesOf(s[1..], k)
  }

  /** reducef ignores the order of its values. */
  ghost predicate OrderBlind(reducef: ReduceF) {
    forall k, vs, ws :: multiset(vs) == multiset(ws) ==> reducef(k, vs) == reducef(k, ws)
  }

  /** One line for every key of kvs: the reduction of all its values. */
  ghost predicate Exact(ls: seq<Line>, kvs: seq<KeyValue>, reducef: ReduceF) {
    && (forall l: Line :: l in ls <==> ValuesOf(kvs, l.0) != [] && l.1 == reducef(l.0, ValuesOf(kvs, l.0)))
    && DistinctKeys(ls)
  }

  ghost predicate DistinctKeys(ls: seq<Line>) {
    forall i, j :: 0 <= i < j < |ls| ==> ls[i].0 != ls[j].0
  }

  lemma {:induction false} ValuesOfConcat(a: seq<KeyValue>, b: seq<KeyValue>, k: string)
    ensures ValuesOf(a + b, k) == ValuesOf(a, k) + ValuesOf(b, k)
    decreases |a|
  {
    if a == [] {
      assert a + b == b;
    } else {
      assert (a + b)[1..] == a[1..] + b;
      ValuesOfConcat(a[1..], b, k);
    }
  }

  lemma {:induction false} ValuesCounted(s: seq<KeyValue>, k: string, v: string)
    ensures multiset(ValuesOf(s, k))[v] == multiset(s)[KeyValue(k, v)]
  {
    if s == [] {
    } else {
      assert s == [s[0]] + s[1..];
      ValuesCounted(s[1..], k, v);
    }
  }

  lemma SameValues(a: seq<KeyValue>, b: seq<KeyValue>, k: string)
    requires multiset(a) == multiset(b)
    ensures multiset(ValuesOf(a, k)) == multiset(ValuesOf(b, k))
    ensures ValuesOf(a, k) == [] <==> ValuesOf(b, k) == []
  {
    forall v ensures multiset(ValuesOf(a, k))[v] == multiset(ValuesOf(b, k))[v] {
      ValuesCounted(a, k, v);
      ValuesCounted(b, k, v);
    }
    assert |multiset(ValuesOf(a, k))| == |ValuesOf(a, k)| && |multiset(ValuesOf(b, k))| == |ValuesOf(b, k)|;
  }

  lemma {:induction false} ValuesOfRun(s: seq<KeyValue>, k: string)
    requires forall i :: 0 <= i < |s| ==> s[i].key == k
    ensures ValuesOf(s, k) == Values(s)
  {
    if s == [] {
    } else {
      ValuesOfRun(s[1..], k);
      assert Values(s) == [s[0].value] + Values(s[1..]);
    }
  }

  lemma {:induction false} ValuesOfAbsent(s: seq<KeyValue>, k: string)
    requires forall i :: 0 <= i < |s| ==> s[i].key != k
    ensures ValuesOf(s, k) == []
  {
    if s == [] {
    } else {
      ValuesOfAbsent(s[1..], k);
    }
  }

  /** In a sorted sequence the first run has all the values of its key, and the rest has all the others. */
  lemma FirstRun(s: seq<KeyValue>, k: string)
    requires Sorted(s) && |s| > 0
    ensures k == s[0].key ==> ValuesOf(s, k) == Values(s[..Run(s)]) && ValuesOf(s[Run(s)..], k) == []
    ensures k != s[0].key ==> ValuesOf(s, k) == ValuesOf(s[Run(s)..], k)
    ensures Values(s[..Run(s)]) != []
  {
    var j := Run(s);
    assert s == s[..j] + s[j..];
    ValuesOfConcat(s[..j], s[j..], k);
    if k == s[0].key {
      forall i | j <= i < |s| ensures s[i].key != k {
        LeqTotal(s[0].key, s[j].key);
      }
      ValuesOfRun(s[..j], k);
      ValuesOfAbsent(s[j..], k);
    } else {
      ValuesOfAbsent(s[..j], k);
    }
  }

  lemma {:induction false} GroupedExact(s: seq<KeyValue>, reducef: ReduceF)
    requires Sorted(s)
    ensures Exact(Grouped(s, reducef), s, reducef)
    decreases |s|
  {
    if s == [] {
    } else {
      var j := Run(s);
      var first, rest := (s[0].key, reducef(s[0].key, Values(s[..j]))), Grouped(s[j..], reducef);
      GroupedExact(s[j..], reducef);
      FirstRun(s, s[0].key);
      forall l: Line
        ensures l in [first] + rest <==> ValuesOf(s, l.0) != [] && l.1 == reducef(l.0, ValuesOf(s, l.0))
      {
        FirstRun(s, l.0);
      }
      forall i | 0 <= i < |rest| ensures rest[i].0 != first.0 { assert rest[i] in rest; }
    }
  }

  /** Sorting an input any way leaves the lines its own, when reducef ignores order. */
  lemma SortedExact(s: seq<KeyValue>, kvs: seq<KeyValue>, reducef: ReduceF)
    requires SortedCopy(s, kvs) && OrderBlind(reducef)
    ensures Exact(Grouped(s, reducef), kvs, reducef)
  {
    GroupedExact(s, reducef);
    forall l: Line
      ensures ValuesOf(s, l.0) == [] <==> ValuesOf(kvs, l.0) == []
      ensures reducef(l.0, ValuesOf(s, l.0)) == reducef(l.0, ValuesOf(kvs, l.0))
    {
      SameValues(s, kvs, l.0);
    }
  }

  // ----- buckets -----

  /** The pairs whose key hashes to bucket b, in order. */
  ghost function Bucket(kvs: seq<KeyValue>, hash: string -> nat, r: nat, b: nat): seq<KeyValue>
    requires r > 0
  {
    if kvs == [] then []
    else
      var last := kvs[|kvs| - 1];
      Bucket(kvs[..|kvs| - 1], hash, r, b) + if hash(last.key) % r == b then [last] else []
  }

  lemma {:induction false} BucketConcat(a: seq<KeyValue>, c: seq<KeyValue>, hash: string -> nat, r: nat, b: nat)
    requires r > 0
    ensures Bucket(a + c, hash, r, b) == Bucket(a, hash, r, b) + Bucket(c, hash, r, b)
    decreases |c|
  {
    if c == [] {
      assert a + c == a;
    } else {
      assert (a + c)[..|a + c| - 1] == a + c[..|c| - 1];
      BucketConcat(a, c[..|c| - 1], hash, r, b);
    }
  }

  /** A key's values are all in its own bucket, and none elsewhere. */
  lemma {:induction false} BucketValues(kvs: seq<KeyValue>, hash: string -> nat, r: nat, b: nat, k: string)
    requires r > 0
    ensures ValuesOf(Bucket(kvs, hash, r, b), k) == if hash(k) % r == b then ValuesOf(kvs, k) else []
  {
    if kvs == [] {
    } else {
      var front, last := kvs[..|kvs| - 1], kvs[|kvs| - 1];
      assert kvs == front + [last];
      BucketValues(front, hash, r, b, k);
      ValuesOfConcat(front, [last], k);
      ValuesOfConcat(Bucket(front, hash, r, b), if hash(last.key) % r == b then [last] else [], k);
    }
  }

  method DoMap(file: string, content: string, r: nat, mapf: MapF, hash: string -> nat) returns (out: seq<seq<KeyValue>>)
    requires r > 0
    ensures |out| == r && forall b :: 0 <= b < r ==> out[b] == Bucket(mapf(file, content), hash, r, b)
  {
    var kvs := mapf(file, content);
    out := seq(r, _ => []);
    for n := 0 to |kvs|
      invariant |out| == r && forall b :: 0 <= b < r ==> out[b] == Bucket(kvs[..n], hash, r, b)
    {
      assert kvs[..n + 1][..n] == kvs[..n];
      var bucket := hash(kvs[n].key) % r;
      out := out[bucket := out[bucket] + [kvs[n]]];
    }
    assert kvs[..|kvs|] == kvs;
  }

  /** Everything reduce task b reads: its file of each map task, in order, skipping any that is missing. */
  ghost function Gather(files: Files, m: nat, b: nat): seq<KeyValue> {
    if m == 0 then [] else Gather(files, m - 1, b) + if (m - 1, b) in files then files[(m - 1, b)] else []
  }

  /** out is what grouping and reducing some sort of kvs prints. */
  ghost predicate Prints(out: seq<string>, kvs: seq<KeyValue>, reducef: ReduceF) {
    exists s :: SortedCopy(s, kvs) && out == Lines(Grouped(s, reducef))
  }

  method DoReduce(files: Files, m: nat, b: nat, reducef: ReduceF) returns (out: seq<string>)
    ensures Prints(out, Gather(files, m, b), reducef)
  {
    var kvs := [];
    for i := 0 to m
      invariant kvs == Gather(files, i, b)
    {
      if (i, b) in files {
        kvs := kvs + files[(i, b)];
      }
    }
    kvs := SortByKey(kvs);
    out := Group(kvs, reducef);
  }

  // ----- the two programs -----

  /** What the map phase emits for the inputs, in order. */
  ghost function Emitted(inputs: seq<(string, string)>, mapf: MapF): seq<KeyValue> {
    if inputs == [] then []
    else
      var last := inputs[|inputs| - 1];
      Emitted(inputs[..|inputs| - 1], mapf) + mapf(last.0, last.1)
  }

  method Sequential(inputs: seq<(string, string)>, mapf: MapF, reducef: ReduceF) returns (out: seq<string>)
    ensures Prints(out, Emitted(inputs, mapf), reducef)
  {
    var intermediate := [];
    for i := 0 to |inputs|
      invariant intermediate == Emitted(inputs[..i], mapf)
    {
      assert inputs[..i + 1][..i] == inputs[..i];
      var kva := mapf(inputs[i].0, inputs[i].1);
      intermediate := intermediate + kva;
    }
    assert inputs[..|inputs|] == inputs;
    intermediate := SortByKey(intermediate);
    out := Group(intermediate, reducef);
  }

  /** Every map task has written its file for every bucket. */
  ghost predicate MapsDone(files: Files, inputs: seq<(string, string)>, mapf: MapF, hash: string -> nat, r: nat)
    requires r > 0
  {
    forall i: nat, b: nat :: i < |inputs| && b < r ==>
      (i, b) in files && files[(i, b)] == Bucket(mapf(inputs[i].0, inputs[i].1), hash, r, b)
  }

  lemma {:induction false} GatherIsBucket(files: Files, inputs: seq<(string, string)>, mapf: MapF, hash: string -> nat,
                                          r: nat, m: nat, b: nat)
    requires r > 0 && b < r && m <= |inputs| && MapsDone(files, inputs, mapf, hash, r)
    ensures Gather(files, m, b) == Bucket(Emitted(inputs[..m], mapf), hash, r, b)
  {
    hide Bucket, Emitted, MapsDone;
    if m == 0 {
      EmittedNone(inputs, mapf, hash, r, b);
    } else {
      GatherIsBucket(files, inputs, mapf, hash, r, m - 1, b);
      FileIs(files, inputs, mapf, hash, r, m - 1, b);
      EmittedNext(inputs, mapf, m);
      BucketConcat(Emitted(inputs[..m - 1], mapf), mapf(inputs[m - 1].0, inputs[m - 1].1), hash, r, b);
    }
  }

  lemma FileIs(files: Files, inputs: seq<(string, string)>, mapf: MapF, hash: string -> nat, r: nat, i: nat, b: nat)
    requires r > 0 && MapsDone(files, inputs, mapf, hash, r) && i < |inputs| && b < r
    ensures (i, b) in files && files[(i, b)] == Bucket(mapf(inputs[i].0, inputs[i].1), hash, r, b)
  {
  }

  lemma EmittedNone(inputs: seq<(string, string)>, mapf: MapF, hash: string -> nat, r: nat, b: nat)
    requires r > 0
    ensures Bucket(Emitted(inputs[..0], mapf), hash, r, b) == []
  {
  }

  lemma EmittedNext(inputs: seq<(string, string)>, mapf: MapF, m: nat)
    requires 0 < m <= |inputs|
    ensures Emitted(inputs[..m], mapf) == Emitted(inputs[..m - 1], mapf) + mapf(inputs[m - 1].0, inputs[m - 1].1)
  {
    assert inputs[..m][..m - 1] == inputs[..m - 1];
  }

  ghost function Flatten<T>(parts: seq<seq<T>>): seq<T> {
    if parts == [] then [] else Flatten(parts[..|parts| - 1]) + parts[|parts| - 1]
  }

  // ----- they mean the same -----

  /** l is the line of a key that occurs and whose bucket is one of the first n. */
  ghost predicate LineOf(l: Line, kvs: seq<KeyValue>, hash: string -> nat, r: nat, n: nat, reducef: ReduceF)
    requires r > 0
  {
    hash(l.0) % r < n && ValuesOf(kvs, l.0) != [] && l.1 == reducef(l.0, ValuesOf(kvs, l.0))
  }

  /** The next bucket adds its own lines, of other keys. */
  lemma NextBucket(front: seq<Line>, last: seq<Line>, kvs: seq<KeyValue>, hash: string -> nat, r: nat, n: nat,
                   reducef: ReduceF, l: Line)
    requires n < r && (l in front <==> LineOf(l, kvs, hash, r, n, reducef))
    requires Exact(last, Bucket(kvs, hash, r, n), reducef)
    ensures l in front + last <==> LineOf(l, kvs, hash, r, n + 1, reducef)
    ensures l in last ==> hash(l.0) % r == n
  {
    hide ValuesOf, Bucket, DistinctKeys;
    BucketValues(kvs, hash, r, n, l.0);
  }

  lemma DistinctAppend(a: seq<Line>, b: seq<Line>)
    requires DistinctKeys(a) && DistinctKeys(b) && forall l, m :: l in a && m in b ==> l.0 != m.0
    ensures DistinctKeys(a + b)
  {
    forall i, j | 0 <= i < j < |a + b| ensures (a + b)[i].0 != (a + b)[j].0 {
      if i < |a| <= j { assert a[i] in a && b[j - |a|] in b; }
    }
  }

  /** The lines of the first n reduce tasks: one for each key of those buckets. */
  lemma {:induction false} BucketsExact(parts: seq<seq<Line>>, kvs: seq<KeyValue>, hash: string -> nat, r: nat,
                                        reducef: ReduceF)
    requires r > 0 && |parts| <= r
    requires forall b :: 0 <= b < |parts| ==> Exact(parts[b], Bucket(kvs, hash, r, b), reducef)
    ensures DistinctKeys(Flatten(parts))
    ensures forall l: Line :: l in Flatten(parts) <==> LineOf(l, kvs, hash, r, |parts|, reducef)
    decreases |parts|
  {
    if parts == [] {
    } else {
      var n := |parts| - 1;
      var front, last := Flatten(parts[..n]), parts[n];
      BucketsExact(parts[..n], kvs, hash, r, reducef);
      hide ValuesOf, Bucket, DistinctKeys;
      forall l: Line
        ensures l in front + last <==> LineOf(l, kvs, hash, r, n + 1, reducef)
        ensures l in last ==> hash(l.0) % r == n
      {
        NextBucket(front, last, kvs, hash, r, n, reducef, l);
      }
      DistinctAppend(front, last);
    }
  }

  lemma {:induction false} DistinctOnce(a: seq<Line>, l: Line)
    requires DistinctKeys(a)
    ensures multiset(a)[l] == if l in a then 1 else 0
  {
    if a == [] {
    } else {
      assert a == [a[0]] + a[1..];
      DistinctOnce(a[1..], l);
      forall i | 0 < i < |a| ensures a[i] != a[0] { assert a[i].0 != a[0].0; }
    }
  }

  lemma SameLines(a: seq<Line>, b: seq<Line>)
    requires DistinctKeys(a) && DistinctKeys(b) && forall l: Line :: l in a <==> l in b
    ensures multiset(a) == multiset(b)
  {
    forall l: Line ensures multiset(a)[l] == multiset(b)[l] {
      DistinctOnce(a, l);
      DistinctOnce(b, l);
    }
  }

  lemma {:induction false} FormatSame(a: seq<Line>, b: seq<Line>)
    requires multiset(a) == multiset(b)
    ensures multiset(Lines(a)) == multiset(Lines(b))
    decreases |a|
  {
    hide Lines;
    assert |multiset(a)| == |a| && |multiset(b)| == |b|;
    if a == [] {
      assert b == [];
    } else {
      var x := a[0];
      assert a == [x] + a[1..];
      assert x in multiset(b);
      var j :| 0 <= j < |b| && b[j] == x;
      var rest := Without(b, j);
      FormatSame(a[1..], rest);
      LinesConcat([x], a[1..]);
    }
  }

  lemma Without(b: seq<Line>, j: nat) returns (rest: seq<Line>)
    requires j < |b|
    ensures multiset(rest) == multiset(b) - multiset{b[j]}
    ensures multiset(Lines(b)) == multiset(Lines(rest)) + multiset{Format(b[j])}
  {
    var front, back := b[..j], b[j + 1..];
    rest := front + back;
    assert b == front + [b[j]] + back;
    LinesConcat(front, back);
    LinesConcat(front, [b[j]]);
    LinesConcat(front + [b[j]], back);
  }

  lemma {:induction false} FlattenLines(parts: seq<seq<Line>>, outs: seq<seq<string>>)
    requires |outs| == |parts| && forall b :: 0 <= b < |parts| ==> outs[b] == Lines(parts[b])
    ensures Flatten(outs) == Lines(Flatten(parts))
    decreases |parts|
  {
    if parts == [] {
    } else {
      FlattenLines(parts[..|parts| - 1], outs[..|parts| - 1]);
    }
  }

  /** The order of keys is the lexicographic one: a prefix comes first, else the first difference decides. */
  lemma {:induction false} LeqMeans(a: string, b: string)
    ensures Leq(a, b) <==> a <= b || exists i :: 0 <= i < |a| && i < |b| && a[..i] == b[..i] && a[i] < b[i]
  {
    if a == [] || b == [] {
    } else {
      LeqMeans(a[1..], b[1..]);
      assert a == [a[0]] + a[1..] && b == [b[0]] + b[1..];
      if a[0] < b[0] {
        assert a[..0] == b[..0];
      } else if a[0] == b[0] {
        Shifted(a, b);
      }
    }
  }

  lemma Shifted(a: string, b: string)
    requires a != [] && b != [] && a[0] == b[0]
    ensures (exists i :: 0 <= i < |a| && i < |b| && a[..i] == b[..i] && a[i] < b[i]) <==>
            exists i :: 0 <= i < |a[1..]| && i < |b[1..]| && a[1..][..i] == b[1..][..i] && a[1..][i] < b[1..][i]
  {
    if i :| 0 <= i < |a| && i < |b| && a[..i] == b[..i] && a[i] < b[i] {
      assert a[1..][..i - 1] == a[..i][1..] && b[1..][..i - 1] == b[..i][1..];
      assert a[1..][i - 1] < b[1..][i - 1];
    }
    if i :| 0 <= i < |a[1..]| && i < |b[1..]| && a[1..][..i] == b[1..][..i] && a[1..][i] < b[1..][i] {
      assert a[..i + 1] == [a[0]] + a[1..][..i] && b[..i + 1] == [b[0]] + b[1..][..i];
      assert a[i + 1] < b[i + 1];
    }
  }

  function KeysOf(ls: seq<Line>): seq<string> {
    seq(|ls|, i requires 0 <= i < |ls| => ls[i].0)
  }

  ghost predicate Increasing(keys: seq<string>) {
    forall i, j :: 0 <= i < j < |keys| ==> keys[i] != keys[j] && Leq(keys[i], keys[j])
  }

  /** The text either program prints for what was emitted: for each key, once and in ascending order, the key, a space,
      the reduction of all its values and a newline. */
  lemma PrintedText(out: seq<string>, kvs: seq<KeyValue>, reducef: ReduceF) returns (keys: seq<string>)
    requires Prints(out, kvs, reducef) && OrderBlind(reducef)
    ensures |keys| == |out| && Increasing(keys) && forall k :: k in keys <==> ValuesOf(kvs, k) != []
    ensures forall i :: 0 <= i < |out| ==> out[i] == keys[i] + " " + reducef(keys[i], ValuesOf(kvs, keys[i])) + "\n"
  {
    hide OrderBlind, Leq, Grouped, SortedCopy, Increasing, ValuesOf;
    var s :| SortedCopy(s, kvs) && out == Lines(Grouped(s, reducef));
    SortedExact(s, kvs, reducef);
    var ls := Grouped(s, reducef);
    keys := KeysOf(ls);
    CopySorted(s, kvs);
    GroupedIncreases(s, reducef);
    forall k ensures k in keys <==> ValuesOf(kvs, k) != [] { ExactKeys(ls, kvs, reducef, k); }
    forall i | 0 <= i < |out| ensures out[i] == keys[i] + " " + reducef(keys[i], ValuesOf(kvs, keys[i])) + "\n" {
      assert ls[i] in ls;
    }
  }

  lemma CopySorted(s: seq<KeyValue>, kvs: seq<KeyValue>)
    requires SortedCopy(s, kvs)
    ensures Sorted(s)
  {
  }

  lemma ExactKeys(ls: seq<Line>, kvs: seq<KeyValue>, reducef: ReduceF, k: string)
    requires Exact(ls, kvs, reducef)
    ensures k in KeysOf(ls) <==> ValuesOf(kvs, k) != []
  {
    hide ValuesOf, DistinctKeys;
    var l := (k, reducef(k, ValuesOf(kvs, k)));
    if k in KeysOf(ls) {
      var i :| 0 <= i < |ls| && KeysOf(ls)[i] == k;
      assert ls[i] in ls;
    }
    if l in ls {
      var i :| 0 <= i < |ls| && ls[i] == l;
      assert KeysOf(ls)[i] == k;
    }
  }

  lemma {:induction false} Occurs(s: seq<KeyValue>, k: string) returns (i: nat)
    requires ValuesOf(s, k) != []
    ensures i < |s| && s[i].key == k
    decreases |s|
  {
    if s[0].key == k {
      i := 0;
    } else {
      i := Occurs(s[1..], k);
      i := i + 1;
    }
  }

  /** The lines of a sorted sequence come in the order of its keys. */
  lemma {:induction false} GroupedIncreases(s: seq<KeyValue>, reducef: ReduceF)
    requires Sorted(s)
    ensures Increasing(KeysOf(Grouped(s, reducef)))
    decreases |s|
  {
    if s == [] {
    } else {
      var j := Run(s);
      var first, rest := (s[0].key, reducef(s[0].key, Values(s[..j]))), Grouped(s[j..], reducef);
      assert Grouped(s, reducef) == [first] + rest;
      GroupedExact(s, reducef);
      GroupedIncreases(s[j..], reducef);
      forall i | 0 <= i < |rest| ensures Leq(first.0, rest[i].0) && first.0 != rest[i].0 {
        RestAfter(s, j, rest, rest[i], reducef);
        assert ([first] + rest)[0].0 != ([first] + rest)[i + 1].0;
      }
      FirstThenRest(first, rest);
    }
  }

  lemma FirstThenRest(first: Line, rest: seq<Line>)
    requires Increasing(KeysOf(rest)) && forall i :: 0 <= i < |rest| ==> Leq(first.0, rest[i].0) && first.0 != rest[i].0
    ensures Increasing(KeysOf([first] + rest))
  {
    hide Leq;
    assert KeysOf([first] + rest) == [first.0] + KeysOf(rest);
  }

  lemma RestAfter(s: seq<KeyValue>, j: nat, rest: seq<Line>, l: Line, reducef: ReduceF)
    requires Sorted(s) && 0 < j <= |s| && rest == Grouped(s[j..], reducef) && l in rest
    ensures Leq(s[0].key, l.0)
  {
    GroupedExact(s[j..], reducef);
    hide Grouped, Leq, ValuesOf;
    var i := Occurs(s[j..], l.0);
    assert s[j + i].key == l.0;
  }

  /** Each key's line is printed by its own bucket's task and by no other. */
  lemma OwnBucketOnly(kvs: seq<KeyValue>, s: seq<KeyValue>, t: seq<KeyValue>, hash: string -> nat, r: nat, b: nat,
                      reducef: ReduceF, l: Line)
    requires r > 0 && OrderBlind(reducef) && SortedCopy(s, kvs) && SortedCopy(t, Bucket(kvs, hash, r, b))
    ensures l in Grouped(t, reducef) <==> l in Grouped(s, reducef) && hash(l.0) % r == b
  {
    SortedExact(s, kvs, reducef);
    SortedExact(t, Bucket(kvs, hash, r, b), reducef);
    BucketValues(kvs, hash, r, b, l.0);
  }

  /** Sorted copies behind the outputs of the reduce tasks. */
  lemma {:induction false} TaskSorts(files: Files, m: nat, outs: seq<seq<string>>, n: nat, reducef: ReduceF)
    returns (tasks: seq<seq<KeyValue>>)
    requires n <= |outs| && forall b: nat :: b < |outs| ==> Prints(outs[b], Gather(files, m, b), reducef)
    ensures |tasks| == n
    ensures forall b: nat :: b < n ==>
      SortedCopy(tasks[b], Gather(files, m, b)) && outs[b] == Lines(Grouped(tasks[b], reducef))
  {
    hide SortedCopy, Grouped, Gather;
    if n == 0 {
      tasks := [];
    } else {
      tasks := TaskSorts(files, m, outs, n - 1, reducef);
      assert Prints(outs[n - 1], Gather(files, m, n - 1), reducef);
      var s :| SortedCopy(s, Gather(files, m, n - 1)) && outs[n - 1] == Lines(Grouped(s, reducef));
      tasks := tasks + [s];
    }
  }

  /** The reduce tasks' lines together are one line for each key. */
  lemma TasksExact(kvs: seq<KeyValue>, hash: string -> nat, r: nat, tasks: seq<seq<KeyValue>>, outs: seq<seq<string>>,
                   reducef: ReduceF)
    returns (ls: seq<Line>)
    requires r > 0 && OrderBlind(reducef) && |tasks| == |outs| == r
    requires forall b: nat :: b < r ==>
      SortedCopy(tasks[b], Bucket(kvs, hash, r, b)) && outs[b] == Lines(Grouped(tasks[b], reducef))
    ensures Exact(ls, kvs, reducef) && Flatten(outs) == Lines(ls)
  {
    hide SortedCopy, Grouped, Lines;
    var parts := seq(r, b requires 0 <= b < r => Grouped(tasks[b], reducef));
    forall b: nat | b < r ensures Exact(parts[b], Bucket(kvs, hash, r, b), reducef) {
      SortedExact(tasks[b], Bucket(kvs, hash, r, b), reducef);
    }
    BucketsExact(parts, kvs, hash, r, reducef);
    FlattenLines(parts, outs);
    ls := Flatten(parts);
  }

  /** Distributed MapReduce means the same as sequential: whatever the hash, the number of buckets and the way
      either program's sort orders equal keys, the reduce tasks together print the lines the sequential
      program prints, each as often. */
  lemma SameMeaning(inputs: seq<(string, string)>, mapf: MapF, reducef: ReduceF, hash: string -> nat, r: nat,
                    files: Files, out: seq<string>, outs: seq<seq<string>>)
    requires r > 0 && OrderBlind(reducef) && MapsDone(files, inputs, mapf, hash, r)
    requires Prints(out, Emitted(inputs, mapf), reducef)
    requires |outs| == r && forall b: nat :: b < r ==> Prints(outs[b], Gather(files, |inputs|, b), reducef)
    ensures multiset(Flatten(outs)) == multiset(out)
  {
    hide SortedCopy, Grouped, Lines, Gather, MapsDone, OrderBlind, Bucket, Emitted, Flatten;
    var kvs := Emitted(inputs, mapf);
    assert inputs[..|inputs|] == inputs;
    var s :| SortedCopy(s, kvs) && out == Lines(Grouped(s, reducef));
    var tasks := TaskSorts(files, |inputs|, outs, r, reducef);
    forall b: nat | b < r ensures SortedCopy(tasks[b], Bucket(kvs, hash, r, b)) {
      GatherIsBucket(files, inputs, mapf, hash, r, |inputs|, b);
    }
    var ls := TasksExact(kvs, hash, r, tasks, outs, reducef);
    SortedExact(s, kvs, reducef);
    SameLines(ls, Grouped(s, reducef));
    FormatSame(ls, Grouped(s, reducef));
  }
}
