/** JavaScript values as the synchronisation engine sees them: the scalar
    and nested values of a record, records as maps from field name to value,
    JavaScript truthiness, and the errors an operation can throw. */
module Values {

  datatype Option<+T> = None | Some(value: T)

  /** A JavaScript value. Timestamps are whole milliseconds held in `Num`. */
  datatype Value =
    | Undefined
    | Null
    | Bool(b: bool)
    | Num(n: int)
    | Str(s: string)
    | Arr(items: seq<Value>)
    | Obj(fields: map<string, Value>)

  /** A record (a plain JavaScript object): field name to value. */
  type Record = map<string, Value>

  /** JavaScript truthiness: `undefined`, `null`, `false`, `0` and `""` are falsy. */
  predicate Truthy(v: Value)
  {
    match v
    case Undefined => false
    case Null => false
    case Bool(b) => b
    case Num(n) => n != 0
    case Str(s) => s != ""
    case Arr(_) => true
    case Obj(_) => true
  }

  /** lodash `isObject`: arrays and objects (functions are not values here). */
  predicate IsObjectLike(v: Value)
  {
    v.Arr? || v.Obj?
  }

  /** Property read `r[k]`: a missing field reads as `undefined`. */
  function Get(r: Record, k: string): (v: Value)
    ensures k !in r ==> v == Undefined
    ensures k in r ==> v == r[k]
  {
    if k in r then r[k] else Undefined
  }

  /** The remote identifier `r.Id`. */
  function IdOf(r: Record): Value
  {
    Get(r, "Id")
  }

  /** The record reached through an object value; any other value has no fields. */
  function AsRecord(v: Value): Record
  {
    if v.Obj? then v.fields else map[]
  }

  /** An optional option name such as `parentFieldName`, given and non-empty. */
  predicate Named(o: Option<string>)
  {
    o.Some? && o.value != ""
  }

  /** A thrown error: `errorType` is `'Meteor.Error'` for Meteor errors,
      `errorCode` is the remote system's code, `sanitized` says whether a
      user-facing `sanitizedError` was attached. */
  datatype Error = Error(errorType: string, errorCode: string, message: string, sanitized: bool)

  function TypeError(message: string): Error
  {
    Error("TypeError", "", message, false)
  }

  /** A callback handed to an event emitter or a collection hook: the object
      it is bound to and the name of the bound method. */
  datatype Handler = Handler(owner: object, callback: string)

  /** The outcome of a JavaScript call that may throw. */
  datatype Result<+T> = Ok(value: T) | Threw(error: Error)

  /** `r` is the order-preserving filter of `s` by `keep`, witnessed by
      `idx`: the strictly increasing positions of `s` that `r` takes, which
      are exactly the positions whose entry `keep` accepts. */
  ghost predicate FilteredAt<T>(r: seq<T>, s: seq<T>, idx: seq<nat>, keep: T -> bool)
  {
    TakenAt(r, s, idx, keep) && Increasing(idx) && Covers(s, idx, keep)
  }

  /** Entry `i` of `r` is the accepted entry of `s` at position `idx[i]`. */
  ghost predicate TakenAt<T>(r: seq<T>, s: seq<T>, idx: seq<nat>, keep: T -> bool)
  {
    |idx| == |r| && forall i :: 0 <= i < |idx| ==> idx[i] < |s| && s[idx[i]] == r[i] && keep(r[i])
  }

  ghost predicate Increasing(idx: seq<nat>)
  {
    forall i, j :: 0 <= i < j < |idx| ==> idx[i] < idx[j]
  }

  /** Every position whose entry `keep` accepts is among `idx`. */
  ghost predicate Covers<T>(s: seq<T>, idx: seq<nat>, keep: T -> bool)
  {
    forall p :: 0 <= p < |s| && keep(s[p]) ==> p in idx
  }

  /** Every position moved one place along, as for a sequence with one more entry in front. */
  function ShiftedPositions(idx: seq<nat>): (r: seq<nat>)
    ensures |r| == |idx| && forall i :: 0 <= i < |idx| ==> r[i] == idx[i] + 1
  {
    seq(|idx|, i requires 0 <= i < |idx| => idx[i] + 1)
  }

  lemma ShiftedIncreasing(idx: seq<nat>)
    requires Increasing(idx)
    ensures Increasing(ShiftedPositions(idx)) && Increasing([0] + ShiftedPositions(idx))
  {
    var sh := ShiftedPositions(idx);
    forall i, j | 0 <= i < j < |[0] + sh|
      ensures ([0] + sh)[i] < ([0] + sh)[j]
    {
      assert ([0] + sh)[j] == idx[j - 1] + 1;
      if i > 0 {
        assert ([0] + sh)[i] == idx[i - 1] + 1;
      }
    }
  }

  lemma ShiftedTaken<T>(x: T, s: seq<T>, r: seq<T>, idx: seq<nat>, keep: T -> bool)
    requires TakenAt(r, s, idx, keep)
    ensures TakenAt(r, [x] + s, ShiftedPositions(idx), keep)
    ensures keep(x) ==> TakenAt([x] + r, [x] + s, [0] + ShiftedPositions(idx), keep)
  {
    var sh, xs := ShiftedPositions(idx), [x] + s;
    forall i | 0 <= i < |sh|
      ensures sh[i] < |xs| && xs[sh[i]] == r[i]
    {
      assert xs[sh[i]] == s[idx[i]];
    }
    if keep(x) {
      forall i | 0 < i < |sh| + 1
        ensures ([0] + sh)[i] == sh[i - 1] && ([x] + r)[i] == r[i - 1]
      {
      }
    }
  }

  lemma ShiftedCovers<T>(x: T, s: seq<T>, idx: seq<nat>, keep: T -> bool)
    requires Covers(s, idx, keep)
    ensures !keep(x) ==> Covers([x] + s, ShiftedPositions(idx), keep)
    ensures keep(x) ==> Covers([x] + s, [0] + ShiftedPositions(idx), keep)
  {
    var sh, xs := ShiftedPositions(idx), [x] + s;
    forall p | 0 < p < |xs| && keep(xs[p])
      ensures p in sh && p in [0] + sh
    {
      assert xs[p] == s[p - 1];
      var i :| 0 <= i < |idx| && idx[i] == p - 1;
      assert sh[i] == p && ([0] + sh)[i + 1] == p;
    }
  }

  /** Filtering `[x] + s`: `x` is kept in front exactly when `keep` accepts
      it, and the rest is `s`'s filter, one place along. */
  lemma FilteredAtCons<T>(x: T, s: seq<T>, r: seq<T>, idx: seq<nat>, keep: T -> bool)
    requires FilteredAt(r, s, idx, keep)
    ensures keep(x) ==> FilteredAt([x] + r, [x] + s, [0] + ShiftedPositions(idx), keep)
    ensures !keep(x) ==> FilteredAt(r, [x] + s, ShiftedPositions(idx), keep)
  {
    ShiftedIncreasing(idx);
    ShiftedTaken(x, s, r, idx, keep);
    ShiftedCovers(x, s, idx, keep);
  }
}
