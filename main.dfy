/**
 * The wiring of main.go: the informer callbacks that turn watch events into
 * queue items, the two configuration defaults, and the ECR handler plugged
 * into the controller.
 */
module EcrController {
  import opened Outcomes
  import opened IndexKeys
  import opened Handlers
  import opened WorkQueues
  import opened Controllers
  import opened EcrHandlers

  // ---------------------------------------------------------------------------
  // Event-to-key translation.

  /**
   * An object handed to a callback: a live object, whose key extraction
   * (`MetaNamespaceKeyFunc`) gives `key`, or the tombstone the informer
   * delivers for an object deleted while the watch was interrupted, which
   * only remembers the object's last key.
   */
  datatype Watched = Live(key: Result<string>) | Tombstone(lastKey: string)

  const NoMeta := Error("object has no meta")

  /** `MetaNamespaceKeyFunc`: a tombstone is not an object, so extraction fails. */
  function MetaNamespaceKey(o: Watched): Result<string> {
    match o
    case Live(k) => k
    case Tombstone(_) => Err(NoMeta)
  }

  /** `DeletionHandlingMetaNamespaceKeyFunc`: a tombstone yields its last key. */
  function DeletionHandlingKey(o: Watched): Result<string> {
    match o
    case Tombstone(k) => Ok(k)
    case Live(_) => MetaNamespaceKey(o)
  }

  /** A Go key function returns "" together with its error. */
  function KeyOrEmpty(r: Result<string>): string {
    if r.Ok? then r.value else ""
  }

  /** The item `AddFunc` enqueues: a create item, and only when the key was extracted. */
  function AddEventItem(obj: Watched): (item: Option<Item>)
    ensures item.Some? <==> MetaNamespaceKey(obj).Ok?
    ensures item.Some? ==> item.value == Keyed(IndexKey("", MetaNamespaceKey(obj).value))
  {
    match MetaNamespaceKey(obj)
    case Ok(k) => Some(Keyed(IndexKey("", k)))
    case Err(_) => None
  }

  /**
   * The item `UpdateFunc` enqueues. Both extractions assign the same `err`, so
   * only the new key's failure suppresses the item; a failed old key leaves
   * `Old` empty.
   */
  function UpdateEventItem(oldObj: Watched, newObj: Watched): (item: Option<Item>)
    ensures item.Some? <==> MetaNamespaceKey(newObj).Ok?
    ensures item.Some? ==> item.value == Keyed(IndexKey(KeyOrEmpty(MetaNamespaceKey(oldObj)), MetaNamespaceKey(newObj).value))
  {
    var oldKey := MetaNamespaceKey(oldObj);
    match MetaNamespaceKey(newObj)
    case Ok(k) => Some(Keyed(IndexKey(KeyOrEmpty(oldKey), k)))
    case Err(_) => None
  }

  /** The item `DeleteFunc` enqueues, with the deletion-tolerant extractor. */
  function DeleteEventItem(obj: Watched): (item: Option<Item>)
    ensures item.Some? <==> DeletionHandlingKey(obj).Ok?
    ensures item.Some? ==> item.value == Keyed(IndexKey("", DeletionHandlingKey(obj).value))
  {
    match DeletionHandlingKey(obj)
    case Ok(k) => Some(Keyed(IndexKey("", k)))
    case Err(_) => None
  }

  function Enqueued(q: QueueState<Item>, item: Option<Item>): QueueState<Item> {
    match item
    case None => q
    case Some(i) => Added(q, i)
  }

  method OnAdd(queue: WorkQueue<Item>, obj: Watched)
    requires queue.Valid()
    modifies queue
    ensures queue.Valid()
    ensures queue.State() == Enqueued(old(queue.State()), AddEventItem(obj))
  {
    var key := MetaNamespaceKey(obj);
    if key.Ok? {
      queue.Add(Keyed(IndexKey("", key.value)));
    }
  }

  method OnUpdate(queue: WorkQueue<Item>, oldObj: Watched, newObj: Watched)
    requires queue.Valid()
    modifies queue
    ensures queue.Valid()
    ensures queue.State() == Enqueued(old(queue.State()), UpdateEventItem(oldObj, newObj))
  {
    var oldKey := MetaNamespaceKey(oldObj);
    var newKey := MetaNamespaceKey(newObj);
    if newKey.Ok? {
      queue.Add(Keyed(IndexKey(KeyOrEmpty(oldKey), newKey.value)));
    }
  }

  method OnDelete(queue: WorkQueue<Item>, obj: Watched)
    requires queue.Valid()
    modifies queue
    ensures queue.Valid()
    ensures queue.State() == Enqueued(old(queue.State()), DeleteEventItem(obj))
  {
    var key := DeletionHandlingKey(obj);
    if key.Ok? {
      queue.Add(Keyed(IndexKey("", key.value)));
    }
  }

  /**
   * An update whose old object's key cannot be extracted is still enqueued,
   * but as a create item: the controller will never call Update for it.
   */
  lemma UnreadableOldKeyMakesCreateItem<T>(c: Cache<T>, oldObj: Watched, newObj: Watched)
    requires MetaNamespaceKey(oldObj).Err? && MetaNamespaceKey(newObj).Ok?
    ensures UpdateEventItem(oldObj, newObj) == AddEventItem(newObj)
    ensures var s := Resolve(c, UpdateEventItem(oldObj, newObj).value);
            s.Invoke? ==> !s.call.Update?
  {
  }

  /** A deleted object's tombstone still reaches the queue under its last key. */
  lemma TombstoneIsEnqueued(q: QueueState<Item>, lastKey: string)
    requires !q.shuttingDown
    ensures var item := Keyed(IndexKey("", lastKey));
            DeleteEventItem(Tombstone(lastKey)) == Some(item) && AddEventItem(Tombstone(lastKey)) == None
            && item in Enqueued(q, DeleteEventItem(Tombstone(lastKey))).dirty
  {
  }

  // ---------------------------------------------------------------------------
  // Configuration defaults.

  const Int64Min: int := -0x8000_0000_0000_0000
  const Int64Max: int := 0x7fff_ffff_ffff_ffff
  const Hour: int := 3_600_000_000_000  // nanoseconds

  /** The largest period in hours whose duration in nanoseconds fits in 64 bits. */
  const MaxResyncHours: int := 2_562_047

  /** The environment lookup with a default, taking an unset or empty variable as absent. */
  function GetEnvWithDefault(env: map<string, string>, name: string, default: string): string {
    if name in env && env[name] != "" then env[name] else default
  }

  predicate IsDigit(ch: char) {
    '0' <= ch <= '9'
  }

  predicate AllDigits(s: string) {
    forall i :: 0 <= i < |s| ==> IsDigit(s[i])
  }

  function DigitsValue(s: string): nat
    requires AllDigits(s)
  {
    if s == [] then 0 else DigitsValue(s[..|s| - 1]) * 10 + (s[|s| - 1] as int - '0' as int)
  }

  const Uint64Max: int := 0xffff_ffff_ffff_ffff

  function Pow10(k: nat): nat {
    if k == 0 then 1 else 10 * Pow10(k - 1)
  }

  /** What `strconv.ParseUint(s, 10, 64)` ends with: a value, a syntax error, or a range error. */
  datatype Scan = Value(n: nat) | SyntaxError | RangeError

  /**
   * ParseUint's loop, from the left with the value read so far: a non-digit
   * is a syntax error, and the first digit that takes the value past
   * 2^64 - 1 is a range error, whatever follows it.
   */
  function ScanDigits(s: string, acc: nat): Scan
    decreases |s|
  {
    if s == [] then Value(acc)
    else if !IsDigit(s[0]) then SyntaxError
    else
      var n := acc * 10 + (s[0] as int - '0' as int);
      if n > Uint64Max then RangeError else ScanDigits(s[1..], n)
  }

  /** `strconv.ParseUint(s, 10, 64)`: the empty string is a syntax error. */
  function ParseUint64(s: string): Scan {
    if s == [] then SyntaxError else ScanDigits(s, 0)
  }

  /** The input without its sign, if it has one. */
  function Unsigned(s: string): string {
    if |s| > 0 && (s[0] == '+' || s[0] == '-') then s[1..] else s
  }

  /** strconv's answer: the value and whether the error was nil. */
  datatype Parsed = Parsed(value: int, ok: bool)

  /**
   * `strconv.ParseInt(s, 10, 64)`, and `strconv.Atoi` on a 64-bit platform
   * (whose short-input fast path agrees with it): an optional sign, then
   * ParseUint; a syntax error gives 0; a range error, or a magnitude beyond
   * the signed range, gives the bound on the sign's side.
   */
  function ParseInt64(s: string): (p: Parsed)
    ensures Int64Min <= p.value <= Int64Max
    ensures !p.ok ==> p.value in {0, Int64Min, Int64Max}
  {
    var neg := |s| > 0 && s[0] == '-';
    match ParseUint64(Unsigned(s))
    case SyntaxError => Parsed(0, false)
    case RangeError => if neg then Parsed(Int64Min, false) else Parsed(Int64Max, false)
    case Value(n) =>
      if !neg && n > Int64Max then Parsed(Int64Max, false)
      else if neg && n > -Int64Min then Parsed(Int64Min, false)
      else Parsed(if neg then -(n as int) else n, true)
  }

  /** A digit string's value read from the left: the first digit is the most significant. */
  lemma {:induction false} DigitsValueCons(s: string)
    requires s != [] && AllDigits(s)
    ensures DigitsValue(s) == (s[0] as int - '0' as int) * Pow10(|s| - 1) + DigitsValue(s[1..])
    decreases |s|
  {
    if |s| > 1 {
      var init := s[..|s| - 1];
      DigitsValueCons(init);
      assert init[0] == s[0] && s[1..][..|s| - 2] == init[1..];
      var d0, dl := s[0] as int - '0' as int, s[|s| - 1] as int - '0' as int;
      var p, r := Pow10(|s| - 2), DigitsValue(init[1..]);
      assert DigitsValue(s[1..]) == r * 10 + dl;
      assert Pow10(|s| - 1) == 10 * p;
      ConsDigit(DigitsValue(s), DigitsValue(init), d0, dl, p, r);
    } else {
      assert s[1..] == [] && s[..0] == [];
    }
  }

  /** The arithmetic of one step of `DigitsValueCons`. */
  lemma ConsDigit(v: int, vInit: int, d0: int, dl: int, p: int, r: int)
    requires v == vInit * 10 + dl && vInit == d0 * p + r
    ensures v == d0 * (10 * p) + (r * 10 + dl)
  {
  }

  lemma {:induction false} DigitsValueBound(s: string)
    requires AllDigits(s)
    ensures DigitsValue(s) < Pow10(|s|)
    decreases |s|
  {
    if s != [] {
      DigitsValueBound(s[..|s| - 1]);
    }
  }

  /**
   * Scanning a prefix of `j` digits: a range error exactly when the value read
   * passes 2^64 - 1, and otherwise the scan goes on with that value.
   */
  lemma {:induction false} ScanPrefix(s: string, acc: nat, j: nat)
    requires acc <= Uint64Max && j <= |s| && AllDigits(s[..j])
    ensures var v := acc * Pow10(j) + DigitsValue(s[..j]);
            ScanDigits(s, acc) == if v > Uint64Max then RangeError else ScanDigits(s[j..], v)
    decreases j
  {
    if j == 0 {
      assert s[..0] == [] && s[0..] == s;
    } else {
      var prefix := s[..j];
      assert IsDigit(prefix[0]);
      var n := acc * 10 + (s[0] as int - '0' as int);
      DigitsValueCons(prefix);
      ShiftDigit(acc, s[0] as int - '0' as int, DigitsValue(prefix[1..]), j);
      if n <= Uint64Max {
        assert s[1..][..j - 1] == prefix[1..];
        assert s[1..][j - 1..] == s[j..];
        ScanPrefix(s[1..], n, j - 1);
      }
    }
  }

  /** Reading one more digit first: the digit moves one place up. */
  lemma ShiftDigit(acc: nat, d: nat, rest: nat, j: nat)
    requires j >= 1
    ensures acc * Pow10(j) + (d * Pow10(j - 1) + rest) == (acc * 10 + d) * Pow10(j - 1) + rest
    ensures (acc * 10 + d) * Pow10(j - 1) + rest >= acc * 10 + d
  {
    var p := Pow10(j - 1);
    assert Pow10(j) == 10 * p;
    PowPositive(j - 1);
    assert acc * (10 * p) + d * p == (acc * 10 + d) * p;
    assert (acc * 10 + d) * p >= acc * 10 + d;
  }

  lemma {:induction false} PowPositive(k: nat)
    ensures Pow10(k) >= 1
  {
    if k > 0 {
      PowPositive(k - 1);
    }
  }

  lemma Pow10Of19()
    ensures Pow10(19) == 10_000_000_000_000_000_000
  {
    assert Pow10(5) == 100_000;
    assert Pow10(10) == 10_000_000_000;
    assert Pow10(15) == 1_000_000_000_000_000;
  }

  /**
   * ParseUint on digits that run up to a non-digit at `j`: a range error if
   * the digits read before it already pass 2^64 - 1, otherwise a syntax error.
   */
  lemma ScanStopsAtNonDigit(u: string, j: nat)
    requires j < |u| && AllDigits(u[..j]) && !IsDigit(u[j])
    ensures ParseUint64(u) == if DigitsValue(u[..j]) > Uint64Max then RangeError else SyntaxError
  {
    ScanPrefix(u, 0, j);
    assert u[j..][0] == u[j];
  }

  /**
   * The same after an optional sign: the bound on the sign's side when the
   * digits before the first non-digit overflow, and 0 otherwise.
   */
  lemma ParseStopsAtNonDigit(s: string, j: nat)
    requires j < |Unsigned(s)| && AllDigits(Unsigned(s)[..j]) && !IsDigit(Unsigned(s)[j])
    ensures ParseInt64(s) ==
              if DigitsValue(Unsigned(s)[..j]) <= Uint64Max then Parsed(0, false)
              else if s[0] == '-' then Parsed(Int64Min, false)
              else Parsed(Int64Max, false)
  {
    ScanStopsAtNonDigit(Unsigned(s), j);
  }

  lemma {:induction false} Pow10Monotone(i: nat, k: nat)
    requires i <= k
    ensures Pow10(i) <= Pow10(k)
    decreases k
  {
    if i < k {
      Pow10Monotone(i, k - 1);
    }
  }

  /**
   * A value of at most 20 characters that does not end in a digit is a
   * syntax error: value 0. A sign counts as one of the 20, so at most 19
   * digits come before the first bad character, too few to overflow.
   */
  lemma NotEndingInDigitIsSyntaxError(s: string)
    requires |s| <= 20
    requires s == [] || !IsDigit(s[|s| - 1])
    ensures ParseInt64(s) == Parsed(0, false)
  {
    var u := Unsigned(s);
    if u != [] {
      assert u[|u| - 1] == s[|s| - 1];
      var j := FirstNonDigit(u);
      DigitsValueBound(u[..j]);
      Pow10Monotone(j, 19);
      Pow10Of19();
      ParseStopsAtNonDigit(s, j);
    }
  }

  /** A value that does not end in a digit is never accepted. */
  lemma NotEndingInDigitFails(s: string)
    requires s == [] || !IsDigit(s[|s| - 1])
    ensures !ParseInt64(s).ok
  {
    var u := Unsigned(s);
    if u != [] {
      assert u[|u| - 1] == s[|s| - 1];
      ParseStopsAtNonDigit(s, FirstNonDigit(u));
    }
  }

  /** The position of the first non-digit of a string that has one. */
  function FirstNonDigit(s: string): (j: nat)
    requires exists i :: 0 <= i < |s| && !IsDigit(s[i])
    ensures j < |s| && !IsDigit(s[j]) && AllDigits(s[..j])
    decreases |s|
  {
    if !IsDigit(s[0]) then 0
    else
      assert exists i :: 0 <= i < |s[1..]| && !IsDigit(s[1..][i]) by {
        var i :| 0 <= i < |s| && !IsDigit(s[i]);
        assert i > 0 && s[1..][i - 1] == s[i];
      }
      var j := FirstNonDigit(s[1..]);
      assert s[..j + 1] == [s[0]] + s[1..][..j];
      j + 1
  }

  /** An unsigned digit string parses to its value, clamped to the largest int64. */
  lemma UnsignedParse(s: string)
    requires s != [] && AllDigits(s)
    ensures ParseInt64(s) == if DigitsValue(s) > Int64Max then Parsed(Int64Max, false) else Parsed(DigitsValue(s), true)
  {
    assert IsDigit(s[0]);
    ScanPrefix(s, 0, |s|);
    assert s[..|s|] == s && s[|s|..] == [];
  }

  /** The decimal rendering of a natural number, without sign or leading zeros. */
  function DecimalString(n: nat): string
    decreases n
  {
    var d := ['0' + (n % 10) as char];
    if n < 10 then d else DecimalString(n / 10) + d
  }

  /** Parsing undoes rendering. */
  lemma {:induction false} DecimalStringParses(n: nat)
    ensures DecimalString(n) != [] && AllDigits(DecimalString(n))
    ensures DigitsValue(DecimalString(n)) == n
    decreases n
  {
    var s := DecimalString(n);
    if n >= 10 {
      DecimalStringParses(n / 10);
      assert s[..|s| - 1] == DecimalString(n / 10);
    }
  }

  /** A rendered count parses back to itself, or to the bound it exceeds. */
  lemma ParseDecimalString(n: nat)
    ensures ParseInt64(DecimalString(n)) == if n > Int64Max then Parsed(Int64Max, false) else Parsed(n, true)
  {
    DecimalStringParses(n);
    UnsignedParse(DecimalString(n));
  }

  /**
   * `WORKER_NUMBER`: "2" when unset, then `Atoi` with its error discarded;
   * whatever the variable holds, the count is a 64-bit integer.
   */
  function WorkerNumber(env: map<string, string>): (n: int)
    ensures Int64Min <= n <= Int64Max
  {
    ParseInt64(GetEnvWithDefault(env, "WORKER_NUMBER", "2")).value
  }

  /** Two workers when the variable is unset or empty. */
  lemma WorkerNumberDefault(env: map<string, string>)
    requires "WORKER_NUMBER" !in env || env["WORKER_NUMBER"] == ""
    ensures WorkerNumber(env) == 2
  {
    assert DecimalString(2) == "2";
    ParseDecimalString(2);
  }

  /**
   * A rendered count is taken as it is; since the range error is ignored, a
   * count beyond 64 bits gives the clamped bound.
   */
  lemma WorkerNumberGiven(env: map<string, string>, n: nat)
    ensures WorkerNumber(env["WORKER_NUMBER" := DecimalString(n)]) == if n > Int64Max then Int64Max else n
  {
    DecimalStringParses(n);
    ParseDecimalString(n);
  }

  /**
   * Since the syntax error is ignored, an unparsable count of at most 20
   * characters gives 0 workers.
   */
  lemma WorkerNumberUnparsable(env: map<string, string>)
    requires "WORKER_NUMBER" in env && env["WORKER_NUMBER"] != "" && |env["WORKER_NUMBER"]| <= 20
    requires !IsDigit(env["WORKER_NUMBER"][|env["WORKER_NUMBER"]| - 1])
    ensures WorkerNumber(env) == 0
  {
    NotEndingInDigitIsSyntaxError(env["WORKER_NUMBER"]);
  }

  /**
   * Digits that pass 2^64 - 1 before a bad character are a range error, not
   * a syntax error: since that error is ignored too, the count is the
   * largest int64.
   */
  lemma WorkerNumberOverflowBeforeJunk(env: map<string, string>, n: nat, junk: string)
    requires n > Uint64Max && junk != [] && !IsDigit(junk[0])
    ensures WorkerNumber(env["WORKER_NUMBER" := DecimalString(n) + junk]) == Int64Max
  {
    var digits := DecimalString(n);
    var v := digits + junk;
    DecimalStringParses(n);
    assert IsDigit(v[0]) && Unsigned(v) == v;
    assert v[..|digits|] == digits && v[|digits|] == junk[0];
    ParseStopsAtNonDigit(v, |digits|);
  }

  /** Go's signed 64-bit wrap-around of an integer result. */
  function WrapInt64(x: int): int {
    (x - Int64Min) % 0x1_0000_0000_0000_0000 + Int64Min
  }

  /**
   * `ECR_RESYNC_PERIOD` in hours, "5" when unset; a parse error is fatal
   * (`log.Fatal`, here `Err`); the hours become a `time.Duration` by a 64-bit
   * multiplication that wraps around, so an accepted period is always a
   * 64-bit duration.
   */
  function ResyncPeriod(env: map<string, string>): (r: Result<int>)
    ensures r.Ok? ==> Int64Min <= r.value <= Int64Max
  {
    var p := ParseInt64(GetEnvWithDefault(env, "ECR_RESYNC_PERIOD", "5"));
    if !p.ok then Err(Error("Failed to parse 'RESYNC_PERIOD' environment variable"))
    else Ok(WrapInt64(p.value * Hour))
  }

  /** Five hours when the variable is unset or empty, not the two of the file's header comment. */
  lemma ResyncPeriodDefault(env: map<string, string>)
    requires "ECR_RESYNC_PERIOD" !in env || env["ECR_RESYNC_PERIOD"] == ""
    ensures ResyncPeriod(env) == Ok(5 * Hour)
  {
    assert DecimalString(5) == "5";
    ParseDecimalString(5);
  }

  /** A rendered count of hours up to `MaxResyncHours` is that many hours. */
  lemma ResyncPeriodGiven(env: map<string, string>, hours: nat)
    requires hours <= MaxResyncHours
    ensures ResyncPeriod(env["ECR_RESYNC_PERIOD" := DecimalString(hours)]) == Ok(hours * Hour)
  {
    DecimalStringParses(hours);
    ParseDecimalString(hours);
    WrapSmall(hours * Hour);
  }

  /** A count that does not end in a digit is fatal, whatever its length: a syntax or a range error. */
  lemma ResyncPeriodUnparsable(env: map<string, string>)
    requires "ECR_RESYNC_PERIOD" in env && env["ECR_RESYNC_PERIOD"] != ""
    requires !IsDigit(env["ECR_RESYNC_PERIOD"][|env["ECR_RESYNC_PERIOD"]| - 1])
    ensures ResyncPeriod(env).Err?
  {
    NotEndingInDigitFails(env["ECR_RESYNC_PERIOD"]);
  }

  lemma WrapSmall(x: int)
    requires Int64Min <= x <= Int64Max
    ensures WrapInt64(x) == x
  {
  }

  /**
   * One hour more than `MaxResyncHours` is accepted by the parse but wraps
   * around to a negative duration.
   */
  lemma ResyncPeriodWraps(env: map<string, string>)
    ensures ResyncPeriod(env["ECR_RESYNC_PERIOD" := DecimalString(MaxResyncHours + 1)]) == Ok(-9_223_371_273_709_551_616)
  {
    DecimalStringParses(MaxResyncHours + 1);
    ParseDecimalString(MaxResyncHours + 1);
    assert (MaxResyncHours + 1) * Hour == 9_223_372_800_000_000_000;
  }

  // ---------------------------------------------------------------------------
  // The ECR handler plugged into the controller.

  /** `ecrController`'s handler, with the token fetch of this round as input. */
  function EcrHandle(h: EcrSettings, fetch: Result<seq<AuthData>>): (ClusterState, Call<Namespace>) -> Reply<ClusterState> {
    (st: ClusterState, c: Call<Namespace>) => Handle(h, fetch, st, c)
  }

  /**
   * One cycle on the item of a present namespace that is not excluded (a
   * create item, or an update item whose old lookup does not fail): the
   * namespace ends up holding exactly the built secret, the item is
   * forgotten and not requeued, and nothing is reported; unless the API
   * refuses the write or an existing secret cannot be read, in which case
   * the cluster is unchanged and the item is retried.
   */
  lemma PresentNamespaceGetsSecret(h: EcrSettings, data: seq<AuthData>, c: Cache<Namespace>,
                                   w: Worker<ClusterState, Namespace>)
    requires Inv(w.queue) && Bounded(w.queue) && w.queue.pending != []
    requires var item := w.queue.pending[0];
             && NewKey(item) !in c.failing && NewKey(item) in c.objects
             && (OldKey(item) == "" || OldKey(item) !in c.failing)
    requires WellFormed(w.world) && h.secretName != ""
    requires !IfSkip(h, c.objects[NewKey(w.queue.pending[0])].name)
    ensures var item := w.queue.pending[0];
            var ns := c.objects[NewKey(item)];
            var ref := (ns.name, h.secretName);
            var w' := Cycle(c, EcrHandle(h, Ok(data)), w);
            && |w'.calls| == |w.calls| + 1
            && (CanInstall(w.world, ref) ==>
                  && w'.world.secrets == w.world.secrets[ref := EcrSecret(h, ns.name, Ok(data)).value]
                  && w'.queue.pending == w.queue.pending[1..]
                  && Requeues(w'.queue, item) == 0
                  && w'.reported == w.reported)
            && (!CanInstall(w.world, ref) ==> w'.world == w.world)
  {
    var item := w.queue.pending[0];
    var ns := c.objects[NewKey(item)];
    CycleEffect(c, EcrHandle(h, Ok(data)), w);
    UpsertInstallsSecret(h, data, w.world, ns);
  }

  /**
   * One cycle on the item of a namespace no longer in the cache: the handler's
   * Delete is called, nothing in the cluster changes, and the item is forgotten.
   */
  lemma DeletedNamespaceIsForgotten(h: EcrSettings, fetch: Result<seq<AuthData>>, c: Cache<Namespace>,
                                    w: Worker<ClusterState, Namespace>)
    requires Inv(w.queue) && Bounded(w.queue) && w.queue.pending != []
    requires NewKey(w.queue.pending[0]) !in c.failing && NewKey(w.queue.pending[0]) !in c.objects
    ensures var w' := Cycle(c, EcrHandle(h, fetch), w);
            && w'.calls == w.calls + [Delete(None)]
            && w'.world == w.world
            && w'.queue.pending == w.queue.pending[1..]
            && Requeues(w'.queue, w.queue.pending[0]) == 0
            && w'.reported == w.reported
  {
    CycleEffect(c, EcrHandle(h, fetch), w);
  }
}
