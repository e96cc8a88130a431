/**
 * The request logger: in development it logs a copy of the request body
 * with the values of seven sensitive keys replaced, and in every case it
 * passes the request on exactly once. The typed and the plain middleware
 * behave the same. The other logged fields (method, URL, address, agent,
 * time) are not modelled.
 */
module RequestLog {
  import opened Common

  /** A parsed request body, or `undefined` when there is none. */
  datatype Value =
    | Undefined
    | Null
    | Bool(b: bool)
    | Num(n: int)
    | Str(s: string)
    | Arr(items: seq<Value>)
    | Obj(fields: map<string, Value>)

  const REDACTED: string := "[REDACTED]"

  const SENSITIVE_FIELDS: seq<string> :=
    ["password", "token", "accessToken", "refreshToken", "secret", "apiKey", "authorization"]

  predicate Truthy(v: Value)
  {
    match v
    case Undefined => false
    case Null => false
    case Bool(b) => b
    case Num(n) => n != 0
    case Str(s) => s != ""
    case _ => true
  }

  /** `typeof v === 'object'` for a value that is not null. */
  predicate IsObjectLike(v: Value)
  {
    v.Arr? || v.Obj?
  }

  /** Different indices have different decimal keys. */
  lemma DecimalInjective(i: nat, j: nat)
    ensures Decimal(i) == Decimal(j) ==> i == j
  {
    DecimalValue(i);
    DecimalValue(j);
  }

  /** The entries `{ ...items }` gives an array: its elements under their
      indices in decimal. */
  function IndexEntries(items: seq<Value>): (m: map<string, Value>)
    ensures |items| > 0 ==> Decimal(|items| - 1) in m
  {
    if items == [] then map[]
    else
      var n := |items| - 1;
      IndexEntries(items[..n])[Decimal(n) := items[n]]
  }

  /** Every element is found under its index. */
  lemma {:induction false} IndexEntriesHoldItems(items: seq<Value>, i: nat)
    requires i < |items|
    ensures Decimal(i) in IndexEntries(items) && IndexEntries(items)[Decimal(i)] == items[i]
    decreases |items|
  {
    var n := |items| - 1;
    var prev := IndexEntries(items[..n]);
    assert IndexEntries(items) == prev[Decimal(n) := items[n]];
    if i < n {
      IndexEntriesHoldItems(items[..n], i);
      DecimalInjective(i, n);
    }
  }

  /** `k` is the decimal form of an index below `len`. */
  predicate IsIndexKey(k: string, len: nat)
  {
    exists i :: 0 <= i < len && k == Decimal(i)
  }

  /** Every key is the decimal form of an index. */
  lemma {:induction false} IndexEntriesKeys(items: seq<Value>)
    ensures forall k :: k in IndexEntries(items) ==> IsIndexKey(k, |items|)
    decreases |items|
  {
    if items != [] {
      var n := |items| - 1;
      var prev := IndexEntries(items[..n]);
      assert IndexEntries(items) == prev[Decimal(n) := items[n]];
      IndexEntriesKeys(items[..n]);
      forall k | k in IndexEntries(items) ensures IsIndexKey(k, |items|) {
        if k == Decimal(n) {
          assert 0 <= n < |items| && k == Decimal(n);
        } else {
          assert IsIndexKey(k, n);
          var i :| 0 <= i < n && k == Decimal(i);
          assert 0 <= i < |items| && k == Decimal(i);
        }
      }
    }
  }

  /** `{ ...body }` for an object or an array. */
  function Spread(v: Value): map<string, Value>
    requires IsObjectLike(v)
  {
    if v.Obj? then v.fields else IndexEntries(v.items)
  }

  predicate Sensitive(key: string)
  {
    key in SENSITIVE_FIELDS
  }

  /** The replacement applied to one entry of the copy. */
  function RedactEntry(key: string, v: Value): Value
  {
    if Sensitive(key) && Truthy(v) then Str(REDACTED) else v
  }

  /** `sanitizeSensitiveData`: a value that is falsy or not an object comes
      back as it is; otherwise a shallow copy in which each sensitive key
      holding a truthy value holds `[REDACTED]` instead. */
  function Sanitize(body: Value): (r: Value)
    ensures !Truthy(body) || !IsObjectLike(body) ==> r == body
    ensures Truthy(body) && IsObjectLike(body) ==>
      && r.Obj?
      && r.fields.Keys == Spread(body).Keys
      && forall k :: k in r.fields ==> r.fields[k] == RedactEntry(k, Spread(body)[k])
  {
    if !Truthy(body) || !IsObjectLike(body) then body
    else
      var copy := Spread(body);
      Obj(map k | k in copy :: RedactEntry(k, copy[k]))
  }

  /** No sensitive key of the logged copy holds a truthy value other than
      the marker, and every other key holds exactly what the body held. */
  lemma SanitizedHidesSecrets(body: Value)
    requires body.Obj?
    ensures var r := Sanitize(body);
      && r.Obj? && r.fields.Keys == body.fields.Keys
      && (forall k :: k in r.fields && Sensitive(k) ==> !Truthy(r.fields[k]) || r.fields[k] == Str(REDACTED))
      && (forall k :: k in r.fields && !Sensitive(k) ==> r.fields[k] == body.fields[k])
      && (forall k :: k in r.fields && !Truthy(body.fields[k]) ==> r.fields[k] == body.fields[k])
  {
  }

  /** The decimal keys of an array are never sensitive. */
  lemma IndexKeysNotSensitive(i: nat)
    ensures !Sensitive(Decimal(i))
  {
    var d := Decimal(i);
    assert IsDigit(d[0]);
    forall k | k in SENSITIVE_FIELDS ensures k != d {
      assert !IsDigit(k[0]);
    }
  }

  /** Sanitizing a sanitized body changes nothing more. */
  lemma SanitizeIdempotent(body: Value)
    ensures Sanitize(Sanitize(body)) == Sanitize(body)
  {
    if Truthy(body) && IsObjectLike(body) {
      var r := Sanitize(body);
      forall k | k in r.fields
        ensures RedactEntry(k, r.fields[k]) == r.fields[k]
      {
        if body.Arr? {
          IndexEntriesKeys(body.items);
          var i :| 0 <= i < |body.items| && k == Decimal(i);
          IndexKeysNotSensitive(i);
        }
      }
      assert Sanitize(r).fields == r.fields;
    }
  }

  /** Only the top level is redacted: a password inside a nested object is
      logged as sent. */
  lemma NestedValuesNotRedacted()
    ensures var inner := Obj(map["password" := Str("hunter2")]);
            Sanitize(Obj(map["user" := inner])) == Obj(map["user" := inner])
  {
    var inner := Obj(map["password" := Str("hunter2")]);
    var r := Sanitize(Obj(map["user" := inner]));
    assert !Sensitive("user") by {
      forall k | k in SENSITIVE_FIELDS ensures k != "user" {
        assert k[0] != 'u';
      }
    }
    assert r.fields == map["user" := inner];
  }

  /** One run of the logger: how often it called `next`, and the body it
      logged, if any. */
  datatype LoggerRun = LoggerRun(nextCalls: nat, loggedBody: Option<Value>)

  /** `requestLogger`: only in development is the sanitized body logged;
      `loggingFails` stands for the log statement throwing, which the
      middleware catches. Either way `next` is called once. */
  function RequestLogger(development: bool, body: Value, loggingFails: bool): (run: LoggerRun)
    ensures run.nextCalls == 1
    ensures run.loggedBody.Some? <==> development && !loggingFails
    ensures run.loggedBody.Some? ==> run.loggedBody.value == Sanitize(body)
  {
    if development && !loggingFails then LoggerRun(1, Some(Sanitize(body)))
    else LoggerRun(1, None)
  }

  /** Whatever the logger logs keeps secrets out of the top level of the
      body. */
  lemma LoggedBodyHidesSecrets(development: bool, body: Value, loggingFails: bool)
    requires body.Obj?
    ensures var run := RequestLogger(development, body, loggingFails);
            run.loggedBody.Some? ==>
              forall k :: k in run.loggedBody.value.fields && Sensitive(k) ==>
                !Truthy(run.loggedBody.value.fields[k]) || run.loggedBody.value.fields[k] == Str(REDACTED)
  {
    SanitizedHidesSecrets(body);
  }
}
