/** The dynamically typed values the Python code passes around in dictionaries and
    database rows, the exceptions it can raise, and a mutable dictionary object. */
module Values {
  import opened Wrappers
  import Companies

  /** An aware `datetime`, kept as the epoch second it denotes (the time zone only
      changes how it is displayed). */
  datatype Instant = Instant(epochSeconds: int)

  /** A Python value as it appears in a parsed JSON record, a dict the code builds,
      or a database row. */
  datatype Value =
    | VNone
    | VBool(b: bool)
    | VInt(i: int)
    | VStr(s: string)
    | VList(items: seq<Value>)
    | VTime(t: Instant)
    | VCompany(c: Companies.Company)

  /** The exceptions the modelled code can raise. */
  datatype Failure =
    | KeyError(key: string)
    | TypeError
    | AttributeError
    | ValidationError
    | IndexError
    | DecodeError
    | AssertionError(message: string)
    | Raised(message: string)  // a bare `Exception(message)`

  type Outcome<T> = Result<T, Failure>

  /** A Python `dict[str, Any]` that is shared by reference and updated in place. */
  class PyDict {
    var entries: map<string, Value>

    constructor (entries: map<string, Value>)
      ensures this.entries == entries
    {
      this.entries := entries;
    }

    /** `d[key] = v` */
    method Put(key: string, v: Value)
      modifies this
      ensures entries == old(entries)[key := v]
    {
      entries := entries[key := v];
    }

    /** `del d[key]` (the caller has checked that the key is present) */
    method Delete(key: string)
      requires key in entries
      modifies this
      ensures entries == old(entries) - {key}
    {
      entries := entries - {key};
    }
  }

  // ------------------------------------------------------------ typed reads

  /** `list[str]` validation: every item is a string. */
  predicate AllStrings(items: seq<Value>) {
    forall i :: 0 <= i < |items| ==> items[i].VStr?
  }

  function Strings(items: seq<Value>): (r: seq<string>)
    requires AllStrings(items)
    ensures |r| == |items| && forall i :: 0 <= i < |r| ==> items[i] == VStr(r[i])
  {
    if items == [] then [] else [items[0].s] + Strings(items[1..])
  }

  function StrValues(ss: seq<string>): (r: seq<Value>)
    ensures AllStrings(r) && Strings(r) == ss
  {
    if ss == [] then [] else [VStr(ss[0])] + StrValues(ss[1..])
  }

  lemma {:induction false} StrValuesStrings(items: seq<Value>)
    requires AllStrings(items)
    ensures StrValues(Strings(items)) == items
  {
    if items != [] {
      StrValuesStrings(items[1..]);
    }
  }

  /** A `str | None` field taken from a value. */
  function OptStr(v: Value): Option<string>
    requires v.VNone? || v.VStr?
  {
    if v.VStr? then Some(v.s) else None
  }

  function OptStrValue(o: Option<string>): (v: Value)
    ensures (v.VNone? || v.VStr?) && OptStr(v) == o
  {
    if o.Some? then VStr(o.value) else VNone
  }
}
