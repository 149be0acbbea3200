/**
 A caller's headers on their way into gRPC metadata, and on from there onto the requests made
 on the caller's behalf.
 */
module HeaderOverlay {
  import opened Results

  type Key = string

  /** A header value. */
  datatype Value = Value(text: string)

  /** A header map's entries: a key may have several values, in their order. */
  type Entries = seq<(Key, Value)>

  function ValuesOf(entries: Entries, key: Key): seq<Value> {
    if entries == [] then []
    else
      var (k, v) := entries[|entries| - 1];
      ValuesOf(entries[..|entries| - 1], key) + if k == key then [v] else []
  }

  function Without(entries: Entries, key: Key): Entries {
    if entries == [] then []
    else
      var last := entries[|entries| - 1];
      Without(entries[..|entries| - 1], key) + if last.0 == key then [] else [last]
  }

  lemma OneMoreEntry(entries: Entries, entry: (Key, Value), key: Key)
    ensures ValuesOf(entries + [entry], key) == ValuesOf(entries, key) + if entry.0 == key then [entry.1] else []
  {
    assert (entries + [entry])[..|entries|] == entries;
  }

  lemma {:induction false} ValuesWithout(entries: Entries, removed: Key, key: Key)
    ensures ValuesOf(Without(entries, removed), key) == if key == removed then [] else ValuesOf(entries, key)
    decreases |entries|
  {
    if entries != [] {
      var before, last := entries[..|entries| - 1], entries[|entries| - 1];
      ValuesWithout(before, removed, key);
      OneMoreEntry(Without(before, removed), last, key);
      assert Without(before, removed) + [] == Without(before, removed);
    }
  }

  /** A header map, changed in place. */
  class HeaderMap {
    var entries: Entries

    constructor (entries: Entries)
      ensures this.entries == entries
    {
      this.entries := entries;
    }

    method Remove(key: Key)
      modifies this
      ensures forall k :: ValuesOf(entries, k) == if k == key then [] else ValuesOf(old(entries), k)
    {
      forall k ensures ValuesOf(Without(entries, key), k) == if k == key then [] else ValuesOf(entries, k) {
        ValuesWithout(entries, key, k);
      }
      entries := Without(entries, key);
    }

    method Append(key: Key, value: Value)
      modifies this
      ensures entries == old(entries) + [(key, value)]
      ensures forall k :: ValuesOf(entries, k) == ValuesOf(old(entries), k) + if k == key then [value] else []
    {
      forall k ensures ValuesOf(entries + [(key, value)], k) == ValuesOf(entries, k) + if k == key then [value] else [] {
        OneMoreEntry(entries, (key, value), k);
      }
      entries := entries + [(key, value)];
    }

    /** One value in place of any there were. */
    method Insert(key: Key, value: Value)
      modifies this
      ensures forall k :: ValuesOf(entries, k) == if k == key then [value] else ValuesOf(old(entries), k)
    {
      Remove(key);
      Append(key, value);
    }
  }

  // ---------------------------------------------------------------- what the metadata takes

  /**
   The metadata's own rules: which lower-case names are keys of it, and which header values
   convert. They are the transport library's, and nothing here depends on what they are.
   */
  datatype Rules = Rules(isKey: Key -> bool, convert: Value -> Option<Value>)

  datatype HeaderMapping = HeaderMapping(httpHeader: string, grpcKey: string)

  function Lower(c: char): char {
    if 'A' <= c <= 'Z' then c - 'A' + 'a' else c
  }

  function ToLower(s: string): (lower: string)
    ensures |lower| == |s|
  {
    seq(|s|, k requires 0 <= k < |s| => Lower(s[k]))
  }

  /** The transport's own keys. */
  predicate Reserved(key: Key) {
    "grpc-" <= key
  }

  predicate Usable(rules: Rules, key: Key) {
    key != "" && !Reserved(key) && rules.isKey(key)
  }

  /** What each of `values` converts to. */
  function Outcomes(rules: Rules, values: seq<Value>): (outcomes: seq<Option<Value>>)
    ensures |outcomes| == |values|
    ensures forall k | 0 <= k < |values| :: outcomes[k] == rules.convert(values[k])
  {
    seq(|values|, k requires 0 <= k < |values| => rules.convert(values[k]))
  }

  /** The values there are, in order. */
  function Somes(outcomes: seq<Option<Value>>): seq<Value> {
    if outcomes == [] then []
    else Somes(outcomes[..|outcomes| - 1]) + Listed(outcomes[|outcomes| - 1])
  }

  function Listed(outcome: Option<Value>): seq<Value> {
    if outcome.Some? then [outcome.value] else []
  }

  /** The values of a header, as many of them as convert. */
  function Converted(rules: Rules, values: seq<Value>): seq<Value> {
    Somes(Outcomes(rules, values))
  }

  lemma SomesMore(outcomes: seq<Option<Value>>, outcome: Option<Value>)
    ensures Somes(outcomes + [outcome]) == Somes(outcomes) + Listed(outcome)
  {
    assert (outcomes + [outcome])[..|outcomes|] == outcomes;
  }

  lemma Regroup<T>(x: seq<T>, y: seq<T>, z: seq<T>)
    ensures x + y + z == x + (y + z)
  {
  }

  lemma {:induction false} SomesConcat(a: seq<Option<Value>>, b: seq<Option<Value>>)
    ensures Somes(a + b) == Somes(a) + Somes(b)
    decreases |b|
  {
    if b == [] {
      assert a + b == a;
    } else {
      var fewer, last := b[..|b| - 1], b[|b| - 1];
      SomesConcat(a, fewer);
      SomesMore(a + fewer, last);
      Regroup(Somes(a), Somes(fewer), Listed(last));
      Regroup(a, fewer, [last]);
      assert b == fewer + [last];
    }
  }

  lemma ConvertedMore(rules: Rules, values: seq<Value>, value: Value)
    ensures Converted(rules, values + [value]) == Converted(rules, values) + Listed(rules.convert(value))
  {
    assert Outcomes(rules, values + [value]) == Outcomes(rules, values) + [rules.convert(value)];
    SomesMore(Outcomes(rules, values), rules.convert(value));
  }

  /** Each value converts on its own, and the order of the values is kept. */
  lemma ConvertedInOrder(rules: Rules, a: seq<Value>, b: seq<Value>)
    ensures Converted(rules, a + b) == Converted(rules, a) + Converted(rules, b)
    ensures |b| == 1 ==> Converted(rules, b) == Listed(rules.convert(b[0]))
  {
    assert Outcomes(rules, a + b) == Outcomes(rules, a) + Outcomes(rules, b);
    SomesConcat(Outcomes(rules, a), Outcomes(rules, b));
    if |b| == 1 {
      ConvertedMore(rules, [], b[0]);
      assert b == [] + [b[0]];
    }
  }

  function Lookup(headers: Entries, name: string): seq<Value> {
    ValuesOf(headers, ToLower(name))
  }

  // ---------------------------------------------------------------- incoming_headers

  /** The last mapping onto `key`, if any mapping is usable and names it. */
  function Winner(rules: Rules, mappings: seq<HeaderMapping>, key: Key): Option<HeaderMapping> {
    if mappings == [] || !Usable(rules, key) then None
    else
      var last := mappings[|mappings| - 1];
      if ToLower(last.grpcKey) == key then Some(last) else Winner(rules, mappings[..|mappings| - 1], key)
  }

  /** What a mapping brings; a request that did not come over HTTP brings nothing. */
  function Brought(rules: Rules, headers: Option<Entries>, mapping: HeaderMapping): seq<Value> {
    match headers
    case None => []
    case Some(h) => Converted(rules, Lookup(h, mapping.httpHeader))
  }

  /** `after` is `before` with the mapped headers, and nothing else, in place of what was under their keys. */
  ghost predicate Overlaid(rules: Rules, mappings: seq<HeaderMapping>, headers: Option<Entries>, before: Entries, after: Entries) {
    forall key :: ValuesOf(after, key) ==
      match Winner(rules, mappings, key)
      case Some(mapping) => Brought(rules, headers, mapping)
      case None => ValuesOf(before, key)
  }

  lemma WinnerMore(rules: Rules, mappings: seq<HeaderMapping>, mapping: HeaderMapping, key: Key)
    ensures Winner(rules, mappings + [mapping], key) ==
            if Usable(rules, key) && ToLower(mapping.grpcKey) == key then Some(mapping) else Winner(rules, mappings, key)
  {
    assert (mappings + [mapping])[..|mappings|] == mappings;
  }

  /** `incoming_headers`. */
  method IncomingHeaders(rules: Rules, existing: Entries, mappings: seq<HeaderMapping>, headers: Option<Entries>)
    returns (metadata: HeaderMap)
    ensures fresh(metadata) && Overlaid(rules, mappings, headers, existing, metadata.entries)
  {
    metadata := new HeaderMap(existing);
    for m := 0 to |mappings|
      invariant fresh(metadata)
      invariant Overlaid(rules, mappings[..m], headers, existing, metadata.entries)
    {
      var key := ToLower(mappings[m].grpcKey);
      ghost var before := metadata.entries;
      assert mappings[..m + 1] == mappings[..m] + [mappings[m]];
      forall k ensures Winner(rules, mappings[..m + 1], k) ==
        if Usable(rules, k) && key == k then Some(mappings[m]) else Winner(rules, mappings[..m], k)
      {
        WinnerMore(rules, mappings[..m], mappings[m], k);
      }
      if key == "" || Reserved(key) { continue; }
      if !rules.isKey(key) { continue; }
      metadata.Remove(key);
      if headers.None? { continue; }
      AppendConverted(rules, metadata, key, Lookup(headers.value, mappings[m].httpHeader));
    }
    assert mappings[..|mappings|] == mappings;
  }

  /** The values of one header, appended under its key. */
  method AppendConverted(rules: Rules, metadata: HeaderMap, key: Key, values: seq<Value>)
    requires ValuesOf(metadata.entries, key) == []
    modifies metadata
    ensures forall k ::
      ValuesOf(metadata.entries, k) == if k == key then Converted(rules, values) else ValuesOf(old(metadata.entries), k)
  {
    for v := 0 to |values|
      invariant forall k ::
        ValuesOf(metadata.entries, k)
        == if k == key then Converted(rules, values[..v]) else ValuesOf(old(metadata.entries), k)
    {
      assert values[..v + 1] == values[..v] + [values[v]];
      ConvertedMore(rules, values[..v], values[v]);
      match rules.convert(values[v]) {
        case Some(converted) => metadata.Append(key, converted);
        case None =>
      }
    }
    assert values[..|values|] == values;
  }

  /** Writing the same request's headers over again changes nothing. */
  lemma OverlayIsIdempotent(rules: Rules, mappings: seq<HeaderMapping>, headers: Option<Entries>, a: Entries, b: Entries, c: Entries)
    requires Overlaid(rules, mappings, headers, a, b) && Overlaid(rules, mappings, headers, b, c)
    ensures forall key :: ValuesOf(c, key) == ValuesOf(b, key)
  {
  }

  /** Nothing an earlier request left under a mapped key is still there: only the unmapped keys can tell two pasts apart. */
  lemma NothingIsLeftBehind(rules: Rules, mappings: seq<HeaderMapping>, headers: Option<Entries>, p: Entries, q: Entries,
                            after: Entries, other: Entries, key: Key)
    requires Overlaid(rules, mappings, headers, p, after) && Overlaid(rules, mappings, headers, q, other)
    ensures ValuesOf(after, key) == ValuesOf(other, key)
       <==> Winner(rules, mappings, key).Some? || ValuesOf(p, key) == ValuesOf(q, key)
  {
  }

  // ---------------------------------------------------------------- forward_metadata

  /** What the transport lets through of the incoming metadata. */
  function Passing(entries: Entries): Entries {
    if entries == [] then []
    else
      var last := entries[|entries| - 1];
      Passing(entries[..|entries| - 1]) + if Reserved(last.0) then [] else [last]
  }

  lemma {:induction false} PassingExactly(entries: Entries, key: Key)
    ensures ValuesOf(Passing(entries), key) == if Reserved(key) then [] else ValuesOf(entries, key)
    decreases |entries|
  {
    if entries != [] {
      var before, last := entries[..|entries| - 1], entries[|entries| - 1];
      PassingExactly(before, key);
      OneMoreEntry(Passing(before), last, key);
      assert Passing(before) + [] == Passing(before);
    }
  }

  /** The headers lifted off one request, in whatever order they are gone through. */
  type Forwarded = seq<(string, Value)>

  /** The value forwarded under `key`: the last usable one of that name. */
  function Forwards(rules: Rules, forwarded: Forwarded, key: Key): Option<Value> {
    if forwarded == [] || Reserved(key) || !rules.isKey(key) then None
    else
      var (name, value) := forwarded[|forwarded| - 1];
      if ToLower(name) == key && rules.convert(value).Some? then rules.convert(value)
      else Forwards(rules, forwarded[..|forwarded| - 1], key)
  }

  /** What is under `key` once forwarded headers are written over `before`. */
  function Applied(rules: Rules, forwarded: Forwarded, before: Entries, key: Key): seq<Value> {
    match Forwards(rules, forwarded, key)
    case Some(value) => [value]
    case None => ValuesOf(before, key)
  }

  lemma ForwardsMore(rules: Rules, forwarded: Forwarded, name: string, value: Value, key: Key)
    ensures Forwards(rules, forwarded + [(name, value)], key) ==
            if Takes(rules, name, value) && ToLower(name) == key then rules.convert(value) else Forwards(rules, forwarded, key)
  {
    assert (forwarded + [(name, value)])[..|forwarded|] == forwarded;
  }

  /** A header is forwarded: its name is a key that is not the transport's, and its value converts. */
  predicate Takes(rules: Rules, name: string, value: Value) {
    !Reserved(ToLower(name)) && rules.isKey(ToLower(name)) && rules.convert(value).Some?
  }

  /** One header applied on top of those before it. */
  lemma AppliedMore(rules: Rules, forwarded: Forwarded, name: string, value: Value, before: Entries, key: Key)
    ensures Applied(rules, forwarded + [(name, value)], before, key) ==
            if Takes(rules, name, value) && ToLower(name) == key then [rules.convert(value).value]
            else Applied(rules, forwarded, before, key)
  {
    ForwardsMore(rules, forwarded, name, value, key);
  }

  /** `ForwardedHeaders::apply`. */
  method Apply(rules: Rules, forwarded: Forwarded, metadata: HeaderMap)
    modifies metadata
    ensures forall key :: ValuesOf(metadata.entries, key) == Applied(rules, forwarded, old(metadata.entries), key)
  {
    ghost var before := metadata.entries;
    for f := 0 to |forwarded|
      invariant forall key :: ValuesOf(metadata.entries, key) == Applied(rules, forwarded[..f], before, key)
    {
      assert forwarded[..f + 1] == forwarded[..f] + [forwarded[f]];
      ApplyOne(rules, forwarded[f].0, forwarded[f].1, metadata, forwarded[..f], before);
    }
    assert forwarded[..|forwarded|] == forwarded;
  }

  /** One pass of the loop. */
  method ApplyOne(rules: Rules, name: string, value: Value, metadata: HeaderMap, ghost done: Forwarded, ghost before: Entries)
    requires forall key :: ValuesOf(metadata.entries, key) == Applied(rules, done, before, key)
    modifies metadata
    ensures forall key :: ValuesOf(metadata.entries, key) == Applied(rules, done + [(name, value)], before, key)
  {
    var key := ToLower(name);
    forall k ensures Applied(rules, done + [(name, value)], before, k) ==
      if Takes(rules, name, value) && key == k then [rules.convert(value).value] else Applied(rules, done, before, k)
    {
      AppliedMore(rules, done, name, value, before, k);
    }
    if Reserved(key) { return; }
    if rules.isKey(key) && rules.convert(value).Some? {
      metadata.Insert(key, rules.convert(value).value);
    }
  }

  /** What is sent onward under `key`: what the request forwarded, or else what came in. Nothing of the transport's. */
  function Onward(rules: Rules, incoming: Option<Entries>, forwarded: Option<Forwarded>, key: Key): seq<Value> {
    if Reserved(key) then []
    else match Forwards(rules, forwarded.UnwrapOr([]), key)
      case Some(value) => [value]
      case None => ValuesOf(incoming.UnwrapOr([]), key)
  }

  /** The gRPC-to-gRPC half: every entry that passes. */
  method AppendPassing(metadata: HeaderMap, incoming: Entries)
    requires metadata.entries == []
    modifies metadata
    ensures forall key :: ValuesOf(metadata.entries, key) == if Reserved(key) then [] else ValuesOf(incoming, key)
  {
    for e := 0 to |incoming|
      invariant metadata.entries == Passing(incoming[..e])
    {
      var (key, value) := incoming[e];
      assert incoming[..e + 1][..e] == incoming[..e];
      if !Reserved(key) { metadata.Append(key, value); }
    }
    assert incoming[..|incoming|] == incoming;
    forall key ensures ValuesOf(metadata.entries, key) == if Reserved(key) then [] else ValuesOf(incoming, key) {
      PassingExactly(incoming, key);
    }
  }

  /** `forward_metadata`. `None` says exactly that there was nothing to send onward. */
  method ForwardMetadata(rules: Rules, incoming: Option<Entries>, forwarded: Option<Forwarded>) returns (result: Option<HeaderMap>)
    ensures result.Some? ==> fresh(result.value) && result.value.entries != []
    ensures result.Some? ==> forall key :: ValuesOf(result.value.entries, key) == Onward(rules, incoming, forwarded, key)
    ensures result.None? ==> forall key :: Onward(rules, incoming, forwarded, key) == []
  {
    var metadata := new HeaderMap([]);
    if incoming.Some? { AppendPassing(metadata, incoming.value); }
    if forwarded.Some? { Apply(rules, forwarded.value, metadata); }
    assert forall key :: ValuesOf(metadata.entries, key) == Onward(rules, incoming, forwarded, key);
    if metadata.entries == [] {
      forall key ensures Onward(rules, incoming, forwarded, key) == [] {
        assert ValuesOf(metadata.entries, key) == [];
      }
      return None;
    }
    result := Some(metadata);
  }

  // ---------------------------------------------------------------- apply_call_context

  /** What one call knows about its caller. */
  datatype CallContext = CallContext(incoming: Entries, forwarded: Option<Forwarded>)

  /** What a request carries under `key` once the context of its call has been applied. */
  function Carried(rules: Rules, context: Option<CallContext>, before: Entries, key: Key): seq<Value> {
    match context
    case None => ValuesOf(before, key)
    case Some(call) =>
      var onward := Onward(rules, Some(call.incoming), call.forwarded, key);
      if onward != [] then onward else ValuesOf(before, key)
  }

  /** `apply_call_context`: the keys sent onward are replaced, and no others. */
  method ApplyCallContext(rules: Rules, context: Option<CallContext>, headers: HeaderMap)
    modifies headers
    ensures forall key :: ValuesOf(headers.entries, key) == Carried(rules, context, old(headers.entries), key)
  {
    if context.None? { return; }
    var metadata := ForwardMetadata(rules, Some(context.value.incoming), context.value.forwarded);
    if metadata.None? { return; }
    Replace(headers, metadata.value.entries);
  }

  /** What is under `key` once `forwarded` has taken the place of what was under its keys. */
  function Replaced(forwarded: Entries, before: Entries, key: Key): seq<Value> {
    if ValuesOf(forwarded, key) != [] then ValuesOf(forwarded, key) else ValuesOf(before, key)
  }

  function Cleared(forwarded: Entries, before: Entries, key: Key): seq<Value> {
    if ValuesOf(forwarded, key) != [] then [] else ValuesOf(before, key)
  }

  /** Every forwarded key removed, then every forwarded entry appended. */
  method Replace(headers: HeaderMap, forwarded: Entries)
    modifies headers
    ensures forall key :: ValuesOf(headers.entries, key) == Replaced(forwarded, old(headers.entries), key)
  {
    RemoveAll(headers, forwarded);
    AppendAll(headers, forwarded);
  }

  method RemoveAll(headers: HeaderMap, forwarded: Entries)
    modifies headers
    ensures forall key :: ValuesOf(headers.entries, key) == Cleared(forwarded, old(headers.entries), key)
  {
    for f := 0 to |forwarded|
      invariant forall key :: ValuesOf(headers.entries, key) == Cleared(forwarded[..f], old(headers.entries), key)
    {
      assert forwarded[..f + 1][..f] == forwarded[..f];
      headers.Remove(forwarded[f].0);
    }
    assert forwarded[..|forwarded|] == forwarded;
  }

  method AppendAll(headers: HeaderMap, forwarded: Entries)
    modifies headers
    ensures forall key :: ValuesOf(headers.entries, key) == ValuesOf(old(headers.entries), key) + ValuesOf(forwarded, key)
  {
    for f := 0 to |forwarded|
      invariant headers.entries == old(headers.entries) + forwarded[..f]
    {
      headers.Append(forwarded[f].0, forwarded[f].1);
    }
    assert forwarded[..|forwarded|] == forwarded;
    forall key ensures ValuesOf(headers.entries, key) == ValuesOf(old(headers.entries), key) + ValuesOf(forwarded, key) {
      ValuesConcat(old(headers.entries), forwarded, key);
    }
  }

  lemma {:induction false} ValuesConcat(a: Entries, b: Entries, key: Key)
    ensures ValuesOf(a + b, key) == ValuesOf(a, key) + ValuesOf(b, key)
    decreases |b|
  {
    if b == [] {
      assert a + b == a;
    } else {
      var last := |b| - 1;
      ValuesConcat(a, b[..last], key);
      OneMoreEntry(a + b[..last], b[last], key);
      assert a + b == a + b[..last] + [b[last]];
    }
  }

  /**
   From the caller's request to one made on its behalf: under a mapped key the caller sent
   something for, the second request carries that and nothing else, whatever the code between
   had put there, unless the same key was forwarded directly, which wins. The transport's own
   keys are as that code left them.
   */
  lemma CallerCannotBeShadowed(rules: Rules, mappings: seq<HeaderMapping>, headers: Option<Entries>, forwarded: Option<Forwarded>,
                               incoming: Entries, before: Entries, key: Key)
    requires Overlaid(rules, mappings, headers, [], incoming)
    ensures var carried := Carried(rules, Some(CallContext(incoming, forwarded)), before, key);
      && (Reserved(key) ==> carried == ValuesOf(before, key))
      && (Forwards(rules, forwarded.UnwrapOr([]), key).Some? ==> carried == [Forwards(rules, forwarded.UnwrapOr([]), key).value])
      && (Forwards(rules, forwarded.UnwrapOr([]), key).None? ==>
            match Winner(rules, mappings, key)
            case Some(mapping) =>
              carried == if Brought(rules, headers, mapping) != [] then Brought(rules, headers, mapping) else ValuesOf(before, key)
            case None => carried == ValuesOf(before, key))
  {
  }
}
