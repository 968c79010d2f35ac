/**
  The JSON-to-Python driver: a recursive descent over a token cursor with a recursion budget and, in
  partial mode, recovery from input that ends too early.
*/
module JsonCursor {
  // The tokens of RFC 8259. A number is one token; Junk is a byte that starts no token.
  datatype Token =
    | Null | True | False | Str(s: string) | Num(n: int)
    | OpenList | CloseList | OpenDict | CloseDict | Comma | Colon | Junk

  datatype Error =
    | EofWhileParsingList | EofWhileParsingObject | EofWhileParsingValue
    | ExpectedListCommaOrEnd | ExpectedObjectCommaOrEnd
    | ExpectedColon | ExpectedSomeValue | KeyMustBeAString | TrailingComma | TrailingCharacters
    | RecursionLimitExceeded | DuplicateKey(key: string)

  predicate AllowedIfPartial(e: Error) {
    e.EofWhileParsingList? || e.EofWhileParsingObject? || e.EofWhileParsingValue?
    || e.ExpectedListCommaOrEnd? || e.ExpectedObjectCommaOrEnd?
  }

  datatype ListStep = Element | ListEnd | ListError(error: Error)
  datatype DictStep = Key(key: string) | DictEnd | DictError(error: Error)

  // Just past the bracket that opens a list: an element follows, or the list is empty.
  function ArrayFirst(ts: seq<Token>): (r: (ListStep, seq<Token>))
    requires ts != []
    ensures |r.1| < |ts| && (r.0.Element? ==> r.1 != [] && !r.1[0].CloseList?)
  {
    if |ts| == 1 then (ListError(EofWhileParsingList), [])
    else if ts[1].CloseList? then (ListEnd, ts[2..])
    else (Element, ts[1..])
  }

  function ArrayStep(ts: seq<Token>): (r: (ListStep, seq<Token>))
    ensures |r.1| <= |ts| && (r.0.Element? ==> |r.1| < |ts| && r.1 != [] && !r.1[0].CloseList?)
  {
    if ts == [] then (ListError(EofWhileParsingList), ts)
    else if ts[0].CloseList? then (ListEnd, ts[1..])
    else if !ts[0].Comma? then (ListError(ExpectedListCommaOrEnd), ts)
    else if |ts| == 1 then (ListError(EofWhileParsingValue), [])
    else if ts[1].CloseList? then (ListError(TrailingComma), ts[1..])
    else (Element, ts[1..])
  }

  function ObjectKey(ts: seq<Token>): (r: (DictStep, seq<Token>))
    requires ts != [] && ts[0].Str?
    ensures |r.1| < |ts| && !r.0.DictEnd?
  {
    if |ts| == 1 then (DictError(EofWhileParsingObject), [])
    else if ts[1].Colon? then (Key(ts[0].s), ts[2..])
    else (DictError(ExpectedColon), ts[1..])
  }

  function ObjectFirst(ts: seq<Token>): (r: (DictStep, seq<Token>))
    requires ts != []
    ensures |r.1| < |ts|
  {
    if |ts| == 1 then (DictError(EofWhileParsingObject), [])
    else if ts[1].Str? then ObjectKey(ts[1..])
    else if ts[1].CloseDict? then (DictEnd, ts[2..])
    else (DictError(KeyMustBeAString), ts[1..])
  }

  function ObjectStep(ts: seq<Token>): (r: (DictStep, seq<Token>))
    ensures |r.1| <= |ts| && (r.0.Key? ==> |r.1| < |ts|)
  {
    if ts == [] then (DictError(EofWhileParsingObject), ts)
    else if ts[0].CloseDict? then (DictEnd, ts[1..])
    else if !ts[0].Comma? then (DictError(ExpectedObjectCommaOrEnd), ts)
    else if |ts| == 1 then (DictError(EofWhileParsingValue), [])
    else if ts[1].Str? then ObjectKey(ts[1..])
    else if ts[1].CloseDict? then (DictError(TrailingComma), ts[1..])
    else (DictError(KeyMustBeAString), ts[1..])
  }
}

module JsonDriver {
  import opened JsonCursor
  import opened Options

  newtype u8 = x: int | 0 <= x < 256

  const DEFAULT_RECURSION_LIMIT: u8 := 200

  // Python values; a dict keeps its entries in insertion order.
  datatype PyValue =
    | PyNone | PyBool(b: bool) | PyStr(s: string) | PyNum(n: int)
    | PyList(items: seq<PyValue>) | PyDict(entries: seq<Entry>)

  datatype Entry = Entry(key: string, value: PyValue)

  datatype Result<+T> = Ok(value: T) | Err(error: Error)

  datatype Config = Config(allowPartial: bool, catchDuplicates: bool)

  // dict.set_item: a key that is there keeps its place and gets the new value.
  function SetItem(entries: seq<Entry>, key: string, value: PyValue): (r: seq<Entry>) {
    if entries == [] then [Entry(key, value)]
    else if entries[0].key == key then [Entry(key, value)] + entries[1..]
    else [entries[0]] + SetItem(entries[1..], key, value)
  }

  // ---------------------------------------------------------------- the parse as a function

  datatype Parsed = Parsed(result: Result<PyValue>, rest: seq<Token>)

  datatype ParsedItems = ParsedItems(items: seq<PyValue>, error: Option<Error>, rest: seq<Token>)

  datatype ParsedEntries = ParsedEntries(entries: seq<Entry>, error: Option<Error>, rest: seq<Token>)

  // Does an error end a list or dict early, or is it passed on?
  predicate Recovers(c: Config, e: Option<Error>) {
    e.None? || (c.allowPartial && AllowedIfPartial(e.value))
  }

  function TakeValue(ts: seq<Token>, limit: nat, c: Config): (r: Parsed)
    requires ts != []
    ensures |r.rest| <= |ts| && (r.result.Ok? ==> |r.rest| < |ts|)
    decreases |ts|, 0
  {
    match ts[0]
    case Null => Parsed(Ok(PyNone), ts[1..])
    case True => Parsed(Ok(PyBool(true)), ts[1..])
    case False => Parsed(Ok(PyBool(false)), ts[1..])
    case Str(s) => Parsed(Ok(PyStr(s)), ts[1..])
    case Num(n) => Parsed(Ok(PyNum(n)), ts[1..])
    case OpenList =>
      var (step, rest) := ArrayFirst(ts);
      (match step
       case ListEnd => Parsed(Ok(PyList([])), rest)
       case ListError(e) => Parsed(if Recovers(c, Some(e)) then Ok(PyList([])) else Err(e), rest)
       case Element =>
         var p := TakeItems(rest, limit, c, []);
         Parsed(if Recovers(c, p.error) then Ok(PyList(p.items)) else Err(p.error.value), p.rest))
    case OpenDict =>
      var (step, rest) := ObjectFirst(ts);
      var p := TakeEntries(step, rest, limit, c, {}, []);
      Parsed(if Recovers(c, p.error) then Ok(PyDict(p.entries)) else Err(p.error.value), p.rest)
    case _ => Parsed(Err(ExpectedSomeValue), ts)
  }

  // One level down, if the budget allows it.
  function CheckTakeValue(ts: seq<Token>, limit: nat, c: Config): (r: Parsed)
    requires ts != []
    ensures |r.rest| <= |ts| && (r.result.Ok? ==> |r.rest| < |ts|)
    decreases |ts|, 1
  {
    if limit == 0 then Parsed(Err(RecursionLimitExceeded), ts) else TakeValue(ts, limit - 1, c)
  }

  // From the start of an element on.
  function TakeItems(ts: seq<Token>, limit: nat, c: Config, items: seq<PyValue>): (r: ParsedItems)
    requires ts != []
    ensures |r.rest| <= |ts| && (r.error.None? ==> |r.rest| < |ts|)
    decreases |ts|, 2
  {
    var p := CheckTakeValue(ts, limit, c);
    match p.result
    case Err(e) => ParsedItems(items, Some(e), p.rest)
    case Ok(v) =>
      var (step, rest) := ArrayStep(p.rest);
      match step
      case ListEnd => ParsedItems(items + [v], None, rest)
      case ListError(e) => ParsedItems(items + [v], Some(e), rest)
      case Element => TakeItems(rest, limit, c, items + [v])
  }

  // From just behind a key and its colon on, or from the end of the dict.
  function TakeEntries(step: DictStep, ts: seq<Token>, limit: nat, c: Config, seen: set<string>, entries: seq<Entry>)
    : (r: ParsedEntries)
    ensures |r.rest| <= |ts|
    decreases |ts|, 2
  {
    match step
    case DictEnd => ParsedEntries(entries, None, ts)
    case DictError(e) => ParsedEntries(entries, Some(e), ts)
    case Key(key) =>
      if c.catchDuplicates && key in seen then ParsedEntries(entries, Some(DuplicateKey(key)), ts)
      else if ts == [] then ParsedEntries(entries, Some(EofWhileParsingValue), ts)
      else
        var p := CheckTakeValue(ts, limit, c);
        match p.result
        case Err(e) => ParsedEntries(entries, Some(e), p.rest)
        case Ok(v) =>
          var (next, rest) := ObjectStep(p.rest);
          TakeEntries(next, rest, limit, c, seen + {key}, SetItem(entries, key, v))
  }

  function Parse(ts: seq<Token>, limit: nat, c: Config): Result<PyValue> {
    if ts == [] then Err(EofWhileParsingValue)
    else
      var p := TakeValue(ts, limit, c);
      if p.result.Ok? && !c.allowPartial && p.rest != [] then Err(TrailingCharacters) else p.result
  }

  // ---------------------------------------------------------------- the parser object

  class PythonParser {
    var rest: seq<Token>
    var recursionLimit: u8
    const config: Config

    constructor (data: seq<Token>, config: Config)
      ensures rest == data && this.config == config && recursionLimit == DEFAULT_RECURSION_LIMIT
    {
      rest, this.config, recursionLimit := data, config, DEFAULT_RECURSION_LIMIT;
    }

    method AllowPartialErr(e: Error) returns (allowed: bool)
      ensures allowed == Recovers(config, Some(e))
    {
      if config.allowPartial {
        allowed := AllowedIfPartial(e);
      } else {
        allowed := false;
      }
    }

    // On every path the budget is what it was, and the value is read with the budget of the moment.
    method PyTakeValue() returns (r: Result<PyValue>)
      requires rest != []
      modifies this
      ensures recursionLimit == old(recursionLimit)
      ensures Parsed(r, rest) == TakeValue(old(rest), old(recursionLimit) as nat, config)
      decreases |rest|, 1
    {
      match rest[0]
      case Null => rest, r := rest[1..], Ok(PyNone);
      case True => rest, r := rest[1..], Ok(PyBool(true));
      case False => rest, r := rest[1..], Ok(PyBool(false));
      case Str(s) => rest, r := rest[1..], Ok(PyStr(s));
      case Num(n) => rest, r := rest[1..], Ok(PyNum(n));
      case OpenList =>
        var (step, after) := ArrayFirst(rest);
        rest := after;
        match step {
          case ListEnd => r := Ok(PyList([]));
          case ListError(e) =>
            var allowed := AllowPartialErr(e);
            r := if allowed then Ok(PyList([])) else Err(e);
          case Element =>
            var items, error := ParseArray();
            r := Ok(PyList(items));
            if error.Some? {
              var allowed := AllowPartialErr(error.value);
              if !allowed {
                r := Err(error.value);
              }
            }
        }
      case OpenDict =>
        var entries, error := ParseObject();
        r := Ok(PyDict(entries));
        if error.Some? {
          var allowed := AllowPartialErr(error.value);
          if !allowed {
            r := Err(error.value);
          }
        }
      case _ => r := Err(ExpectedSomeValue);
    }

    method ParseArray() returns (items: seq<PyValue>, error: Option<Error>)
      requires rest != []
      modifies this
      ensures recursionLimit == old(recursionLimit)
      ensures ParsedItems(items, error, rest) == TakeItems(old(rest), old(recursionLimit) as nat, config, [])
      decreases |rest|, 3
    {
      items := [];
      ghost var limit := recursionLimit as nat;
      ghost var whole := TakeItems(rest, limit, config, []);
      while true
        invariant rest != [] && |rest| <= |old(rest)| && recursionLimit == old(recursionLimit)
        invariant whole == TakeItems(rest, limit, config, items)
        decreases |rest|
      {
        var v := CheckTake();
        if v.Err? {
          return items, Some(v.error);
        }
        items := items + [v.value];
        var (step, after) := ArrayStep(rest);
        rest := after;
        match step
        case ListEnd => return items, None;
        case ListError(e) => return items, Some(e);
        case Element =>
      }
    }

    method ParseObject() returns (entries: seq<Entry>, error: Option<Error>)
      requires rest != []
      modifies this
      ensures recursionLimit == old(recursionLimit)
      ensures var (step, after) := ObjectFirst(old(rest));
              ParsedEntries(entries, error, rest)
              == TakeEntries(step, after, old(recursionLimit) as nat, config, {}, [])
      decreases |rest|, 0
    {
      entries := [];
      var seen: set<string> := {};
      ghost var limit := recursionLimit as nat;
      var (step, after) := ObjectFirst(rest);
      rest := after;
      ghost var whole := TakeEntries(step, rest, limit, config, seen, entries);
      while step.Key?
        invariant |rest| < |old(rest)| && recursionLimit == old(recursionLimit)
        invariant step.Key? || step.DictEnd? || step.DictError?
        invariant whole == TakeEntries(step, rest, limit, config, seen, entries)
        decreases |rest|, if step.Key? then 1 else 0
      {
        if config.catchDuplicates && step.key in seen {
          return entries, Some(DuplicateKey(step.key));
        }
        if rest == [] {
          return entries, Some(EofWhileParsingValue);
        }
        var v := CheckTake();
        if v.Err? {
          return entries, Some(v.error);
        }
        seen := seen + {step.key};
        entries := SetItem(entries, step.key, v.value);
        var (next, following) := ObjectStep(rest);
        step, rest := next, following;
      }
      error := if step.DictError? then Some(step.error) else None;
    }

    // The budget goes down by one for the value and back up after it; neither step leaves the range of u8.
    method CheckTake() returns (r: Result<PyValue>)
      requires rest != []
      modifies this
      ensures recursionLimit == old(recursionLimit)
      ensures Parsed(r, rest) == CheckTakeValue(old(rest), old(recursionLimit) as nat, config)
      decreases |rest|, 2
    {
      if recursionLimit == 0 {
        return Err(RecursionLimitExceeded);
      }
      recursionLimit := recursionLimit - 1;
      r := PyTakeValue();
      recursionLimit := recursionLimit + 1;
    }

    method ParseAll() returns (r: Result<PyValue>)
      modifies this
      ensures recursionLimit == old(recursionLimit)
      ensures r == Parse(old(rest), old(recursionLimit) as nat, config)
    {
      if rest == [] {
        return Err(EofWhileParsingValue);
      }
      r := PyTakeValue();
      if r.Ok? && !config.allowPartial && rest != [] {
        r := Err(TrailingCharacters);
      }
    }
  }

  method PythonParse(data: seq<Token>, config: Config) returns (r: Result<PyValue>)
    ensures r == Parse(data, DEFAULT_RECURSION_LIMIT as nat, config)
  {
    var parser := new PythonParser(data, config);
    r := parser.ParseAll();
  }
}
