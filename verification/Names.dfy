/** What the keeper writes down and reads back: job names and the record's JSON,
    src/pipeline/job_keeper.py. */
module Names {
  import opened Basics
  import opened JobKeeper

  // --- integers as text ---------------------------------------------------------------------

  const DIGITS := "0123456789"

  predicate IsDigit(c: char) {
    '0' <= c <= '9'
  }

  predicate AllDigits(s: string) {
    forall i :: 0 <= i < |s| ==> IsDigit(s[i])
  }

  /** `str(n)` */
  function Decimal(n: nat): string {
    if n < 10 then [DIGITS[n]] else Decimal(n / 10) + [DIGITS[n % 10]]
  }

  function Text(n: int): string {
    if n < 0 then "-" + Decimal(-n) else Decimal(n)
  }

  /** `int(s)` of a run of digits. */
  function Value(s: string): nat
    requires AllDigits(s)
  {
    if s == [] then 0 else 10 * Value(s[..|s| - 1]) + (s[|s| - 1] as int - '0' as int)
  }

  /** `int(s)`, for an optional minus sign and digits. */
  function Number(s: string): Option<int> {
    if s != [] && AllDigits(s) then Some(Value(s) as int)
    else if |s| > 1 && s[0] == '-' && AllDigits(s[1..]) then Some(-(Value(s[1..]) as int))
    else None
  }

  lemma {:induction false} DecimalReadsBack(n: nat)
    ensures Decimal(n) != [] && AllDigits(Decimal(n)) && Value(Decimal(n)) == n
  {
    assert n % 10 < |DIGITS| && IsDigit(DIGITS[n % 10]) && DIGITS[n % 10] as int - '0' as int == n % 10;
    if n >= 10 {
      DecimalReadsBack(n / 10);
      var s := Decimal(n);
      assert s[..|s| - 1] == Decimal(n / 10);
    }
  }

  lemma NumberReadsBack(n: int)
    ensures Number(Text(n)) == Some(n)
  {
    DecimalReadsBack(if n < 0 then -n else n);
    if n < 0 {
      assert Text(n)[1..] == Decimal(-n);
    }
  }

  // --- job names --------------------------------------------------------------------------------

  function JobName(base: string, generation: int): string {
    base + "-g" + Text(generation)
  }

  /** A full match of the base, taken literally, then "-g" and one digit or more. */
  function GenerationOf(base: string, name: string): Option<nat> {
    var n := |base|;
    if |name| > n + 2 && name[..n] == base && name[n..n + 2] == "-g" && AllDigits(name[n + 2..])
    then Some(Value(name[n + 2..])) else None
  }

  /** A job's name gives its generation back; no negative one is ever recognised. */
  lemma GenerationReadsBack(base: string, generation: int)
    ensures GenerationOf(base, JobName(base, generation)) == if generation < 0 then None else Some(generation)
  {
    var name, n := JobName(base, generation), |base|;
    DecimalReadsBack(if generation < 0 then -generation else generation);
    assert name[..n] == base && name[n..n + 2] == "-g" && name[n + 2..] == Text(generation);
    if generation < 0 {
      assert Text(generation)[0] == '-';
    }
  }

  /** The base ends where the name's last dash stands. */
  lemma LastDash(base: string, name: string)
    requires GenerationOf(base, name).Some?
    ensures |base| < |name| && name[|base|] == '-' && forall j :: |base| < j < |name| ==> name[j] != '-'
  {
  }

  /** No name, generated or not, is recognised under two bases. */
  lemma OneBaseOnly(base: string, other: string, name: string)
    requires GenerationOf(base, name).Some? && GenerationOf(other, name).Some?
    ensures base == other
  {
    LastDash(base, name);
    LastDash(other, name);
    assert |base| == |other|;
  }

  lemma NamesDistinct(base: string, other: string, g: int, h: int)
    requires JobName(base, g) == JobName(other, h) && g >= 0 && h >= 0
    ensures base == other && g == h
  {
    GenerationReadsBack(base, g);
    GenerationReadsBack(other, h);
    OneBaseOnly(base, other, JobName(base, g));
  }

  // --- the record -----------------------------------------------------------------------------------

  /** A JSON value as `json` loads it: an object is its entries in order. A job id is opaque. */
  datatype Json = Null | Num(n: int) | Str(s: string) | Id(id: JobId) | Obj(entries: seq<(string, Json)>)

  /** `raw.get(key)`: a repeated key's last entry is the one that counts. */
  function Get(entries: seq<(string, Json)>, key: string): Option<Json> {
    if entries == [] then None
    else if entries[|entries| - 1].0 == key then Some(entries[|entries| - 1].1)
    else Get(entries[..|entries| - 1], key)
  }

  function IntOf(j: Json): Option<int> {
    match j
    case Num(n) => Some(n)
    case Str(s) => Number(s)
    case _ => None
  }

  /** Missing and null are the same to `entry.get`. */
  function ParseAttempt(j: Json): Option<Attempt> {
    if !j.Obj? then None else
      var id := Get(j.entries, "job_id");
      var at := Get(j.entries, "submitted_at");
      if id.Some? && !id.value.Null? && !id.value.Id? then None
      else if at.Some? && !at.value.Null? && !at.value.Str? then None
      else Some(Attempt(if id.Some? && id.value.Id? then Some(id.value.id) else None,
                        if at.Some? && at.value.Str? then Some(at.value.s) else None))
  }

  /** The comprehension over `items()`: in order, a repeated generation's last entry winning. */
  function ParseAttempts(entries: seq<(string, Json)>): Option<map<int, Attempt>> {
    if entries == [] then Some(map[]) else
      var (key, value) := entries[|entries| - 1];
      var rest := ParseAttempts(entries[..|entries| - 1]);
      var g, a := Number(key), ParseAttempt(value);
      if rest.None? || g.None? || a.None? then None else Some(rest.value[g.value := a.value])
  }

  /** `Record.parse`; None where it would raise. */
  function Parse(raw: Json): Option<Record> {
    if !raw.Obj? then None else
      var generation, epoch, failures, attempts :=
        Get(raw.entries, "generation"), Get(raw.entries, "epoch"), Get(raw.entries, "failures"),
        Get(raw.entries, "attempts");
      var g := if generation.None? then Some(0) else IntOf(generation.value);
      var f := if failures.None? then Some(0) else IntOf(failures.value);
      var a := if attempts.None? || attempts.value.Null? then Some(map[])
               else if attempts.value.Obj? then ParseAttempts(attempts.value.entries) else None;
      if g.None? || f.None? || a.None? || (epoch.Some? && !epoch.value.Null? && !epoch.value.Num?) then None
      else
        Some(Record(g.value, if epoch.Some? && epoch.value.Num? then Some(epoch.value.n) else None, f.value, a.value))
  }

  function AttemptJson(a: Attempt): Json {
    Obj([("job_id", if a.jobId.Some? then Id(a.jobId.value) else Null),
         ("submitted_at", if a.submittedAt.Some? then Str(a.submittedAt.value) else Null)])
  }

  /** The attempts in the given order of generations. */
  function AttemptsJson(attempts: map<int, Attempt>, order: seq<int>): seq<(string, Json)>
    requires Elements(order) <= attempts.Keys
  {
    if order == [] then [] else
      var n := |order| - 1;
      assert order[n] in Elements(order) && Elements(order[..n]) <= Elements(order);
      AttemptsJson(attempts, order[..n]) + [(Text(order[n]), AttemptJson(attempts[order[n]]))]
  }

  function RecordJson(r: Record, order: seq<int>): Json
    requires Elements(order) <= r.attempts.Keys
  {
    Obj([("generation", Num(r.generation)),
         ("epoch", if r.epoch.Some? then Num(r.epoch.value) else Null),
         ("failures", Num(r.failures)),
         ("attempts", Obj(AttemptsJson(r.attempts, order)))])
  }

  lemma AttemptReadsBack(a: Attempt)
    ensures ParseAttempt(AttemptJson(a)) == Some(a)
  {
    var e := AttemptJson(a).entries;
    GetTwo(e);
  }

  lemma GetTwo(e: seq<(string, Json)>)
    requires |e| == 2 && e[0].0 == "job_id" && e[1].0 == "submitted_at"
    ensures Get(e, "job_id") == Some(e[0].1) && Get(e, "submitted_at") == Some(e[1].1)
  {
  }

  lemma GetFour(e: seq<(string, Json)>)
    requires |e| == 4 && e[0].0 == "generation" && e[1].0 == "epoch" && e[2].0 == "failures" && e[3].0 == "attempts"
    ensures Get(e, "generation") == Some(e[0].1) && Get(e, "epoch") == Some(e[1].1)
    ensures Get(e, "failures") == Some(e[2].1) && Get(e, "attempts") == Some(e[3].1)
  {
    assert "generation"[0] == 'g' && "epoch"[0] == 'e' && "failures"[0] == 'f' && "attempts"[0] == 'a';
    var three, two, one := e[..3], e[..2], e[..1];
    assert three[..2] == two && two[..1] == one;
    assert forall key :: key == "generation" || key == "epoch" || key == "failures" ==> Get(e, key) == Get(three, key);
    assert forall key :: key == "generation" || key == "epoch" ==> Get(three, key) == Get(two, key);
    assert Get(two, "generation") == Get(one, "generation");
  }

  lemma {:induction false} AttemptsReadBack(attempts: map<int, Attempt>, order: seq<int>)
    requires Elements(order) <= attempts.Keys
    ensures ParseAttempts(AttemptsJson(attempts, order)) == Some(Rebuilt(attempts, order))
  {
    if order != [] {
      var n := |order| - 1;
      var e := AttemptsJson(attempts, order);
      assert order[n] in Elements(order) && Elements(order[..n]) <= Elements(order);
      AttemptsReadBack(attempts, order[..n]);
      assert e[..|e| - 1] == AttemptsJson(attempts, order[..n]);
      NumberReadsBack(order[n]);
      AttemptReadsBack(attempts[order[n]]);
    }
  }

  /** Parsing undoes writing, for every record, in whatever order the attempts are listed. */
  lemma RecordReadsBack(r: Record, order: seq<int>)
    requires Elements(order) == r.attempts.Keys
    ensures Parse(RecordJson(r, order)) == Some(r)
  {
    AttemptsReadBack(r.attempts, order);
    RebuiltWhole(r.attempts, order);
    GetFour(RecordJson(r, order).entries);
  }

  /** A record with nothing in it is the empty one `cluster init` writes. */
  lemma MissingMeansEmpty()
    ensures Parse(Obj([])) == Some(EMPTY_RECORD) == Parse(RecordJson(EMPTY_RECORD, []))
  {
    RecordReadsBack(EMPTY_RECORD, []);
  }

  /** `to_json`: the attempts ascending by generation. */
  method ToJson(r: Record) returns (raw: Json, order: seq<int>)
    ensures Ascending(order) && Elements(order) == r.attempts.Keys
    ensures raw == RecordJson(r, order) && Parse(raw) == Some(r)
  {
    order := SortedKeys(r.attempts.Keys);
    raw := RecordJson(r, order);
    RecordReadsBack(r, order);
  }
}
