/**
  The URL-query coders. `SimpleURLQueryCoder` encodes a dictionary as
  `key=value` pairs joined by `&`, with no escaping; `URLQueryCoder.encode`
  is meant to do the same but, as written, raises `TypeError` on every
  non-empty dictionary. Decoding is Python 2's `urlparse.parse_qs` on the
  unescaped subset: split at every `&` and `;`, cut each piece at its first
  `=`, drop pieces without `=` or with an empty value, and collect the values
  of each name in order of occurrence. `URLQueryCoder` keeps every value of a
  name; `SimpleURLQueryCoder` keeps the first.
*/
module UrlQuery {
  import opened Wrappers
  import opened Exceptions

  // ---------------------------------------------------------------------
  // Splitting a query string into pieces

  predicate IsSeparator(c: char) {
    c == '&' || c == ';'
  }

  predicate NoSeparator(s: string) {
    forall i :: 0 <= i < |s| ==> !IsSeparator(s[i])
  }

  /** `sep.join(pieces)`. */
  function Join(sep: string, pieces: seq<string>): string {
    if |pieces| == 0 then ""
    else if |pieces| == 1 then pieces[0]
    else pieces[0] + sep + Join(sep, pieces[1..])
  }

  /** The pieces between separators, in order; the empty string is one
      empty piece. `SplitWhole` and `SplitAfter` fix it on every string. */
  function Split(s: string): (pieces: seq<string>)
    ensures |pieces| > 0
    ensures forall i :: 0 <= i < |pieces| ==> NoSeparator(pieces[i])
  {
    if s == [] then [""]
    else
      var rest := Split(s[1..]);
      if IsSeparator(s[0]) then [""] + rest
      else [[s[0]] + rest[0]] + rest[1..]
  }

  /** A string without separators is a single piece. */
  lemma {:induction false} SplitWhole(s: string)
    requires NoSeparator(s)
    ensures Split(s) == [s]
  {
    if s != [] {
      assert NoSeparator(s[1..]);
      SplitWhole(s[1..]);
      assert [s[0]] + s[1..] == s;
    }
  }

  /** Everything before the first separator, `&` or `;`, is one piece, and
      the rest is split on its own. */
  lemma {:induction false} SplitAfter(head: string, c: char, tail: string)
    requires NoSeparator(head) && IsSeparator(c)
    ensures Split(head + [c] + tail) == [head] + Split(tail)
  {
    var s := head + [c] + tail;
    if head == [] {
      assert s == [c] + tail;
      assert s[1..] == tail;
    } else {
      assert s[0] == head[0];
      assert s[1..] == head[1..] + [c] + tail;
      assert NoSeparator(head[1..]);
      SplitAfter(head[1..], c, tail);
      assert [head[0]] + head[1..] == head;
    }
  }

  /** Split undoes `'&'.join` on separator-free pieces. */
  lemma {:induction false} SplitJoin(pieces: seq<string>)
    requires |pieces| > 0
    requires forall i :: 0 <= i < |pieces| ==> NoSeparator(pieces[i])
    ensures Split(Join("&", pieces)) == pieces
  {
    if |pieces| == 1 {
      SplitWhole(pieces[0]);
    } else {
      SplitJoin(pieces[1..]);
      SplitAfter(pieces[0], '&', Join("&", pieces[1..]));
      assert [pieces[0]] + pieces[1..] == pieces;
    }
  }

  // ---------------------------------------------------------------------
  // Name/value pairs

  /** Cuts a piece at its first `=`; `None` when it has none. */
  function Partition(s: string): (r: Option<(string, string)>)
    ensures r.None? ==> '=' !in s
    ensures r.Some? ==> '=' !in r.value.0 && s == r.value.0 + "=" + r.value.1
  {
    if s == [] then None
    else if s[0] == '=' then Some(("", s[1..]))
    else
      match Partition(s[1..])
      case None => None
      case Some(nv) => Some(([s[0]] + nv.0, nv.1))
  }

  /** The name is everything before the first `=`. */
  lemma {:induction false} PartitionPair(name: string, value: string)
    requires '=' !in name
    ensures Partition(name + "=" + value) == Some((name, value))
  {
    var s := name + "=" + value;
    if name == [] {
      assert s == ['='] + value;
      assert s[1..] == value;
    } else {
      assert s[0] == name[0];
      assert s[1..] == name[1..] + "=" + value;
      PartitionPair(name[1..], value);
      assert [name[0]] + name[1..] == name;
    }
  }

  /** `parse_qsl` after splitting: pieces without `=` and pieces with an
      empty value are dropped (blank values are not kept). */
  function NameValues(pieces: seq<string>): (pairs: seq<(string, string)>)
    ensures forall i :: 0 <= i < |pairs| ==> pairs[i].1 != "" && '=' !in pairs[i].0
  {
    if pieces == [] then []
    else
      var rest := NameValues(pieces[1..]);
      match Partition(pieces[0])
      case None => rest
      case Some(nv) => if nv.1 == "" then rest else [nv] + rest
  }

  /** A pair is kept exactly when some piece cuts into it and its value is
      not empty: pieces without `=` or with an empty value are dropped, and
      every other piece is kept. */
  lemma {:induction false} NameValuesKeeps(pieces: seq<string>, nv: (string, string))
    ensures nv in NameValues(pieces) <==>
              exists i :: 0 <= i < |pieces| && Partition(pieces[i]) == Some(nv) && nv.1 != ""
  {
    if pieces != [] {
      NameValuesKeeps(pieces[1..], nv);
      if nv in NameValues(pieces[1..]) {
        var j :| 0 <= j < |pieces[1..]| && Partition(pieces[1..][j]) == Some(nv) && nv.1 != "";
        assert pieces[j + 1] == pieces[1..][j];
      }
      if exists i :: 0 < i < |pieces| && Partition(pieces[i]) == Some(nv) && nv.1 != "" {
        var i :| 0 < i < |pieces| && Partition(pieces[i]) == Some(nv) && nv.1 != "";
        assert pieces[1..][i - 1] == pieces[i];
      }
    }
  }

  /** Pieces are read left to right: the pairs of a concatenation are the
      pairs of each part, in order. */
  lemma {:induction false} NameValuesAppend(front: seq<string>, back: seq<string>)
    ensures NameValues(front + back) == NameValues(front) + NameValues(back)
  {
    if front == [] {
      assert front + back == back;
    } else {
      assert (front + back)[0] == front[0];
      assert (front + back)[1..] == front[1..] + back;
      NameValuesAppend(front[1..], back);
    }
  }

  function ParseQsl(query: string): seq<(string, string)> {
    NameValues(Split(query))
  }

  /** The values paired with `name`, in order of occurrence. */
  function ValuesOf(pairs: seq<(string, string)>, name: string): seq<string> {
    if pairs == [] then []
    else (if pairs[0].0 == name then [pairs[0].1] else []) + ValuesOf(pairs[1..], name)
  }

  lemma {:induction false} ValuesOfAppend(pairs: seq<(string, string)>, last: (string, string), name: string)
    ensures ValuesOf(pairs + [last], name) == ValuesOf(pairs, name) + (if last.0 == name then [last.1] else [])
  {
    if pairs != [] {
      assert (pairs + [last])[1..] == pairs[1..] + [last];
      ValuesOfAppend(pairs[1..], last, name);
    } else {
      assert [last][1..] == [];
    }
  }

  /** The dictionary loop of `parse_qs`: append each value to its name's
      list, left to right. */
  function Collect(pairs: seq<(string, string)>): (m: map<string, seq<string>>)
    ensures forall name :: name in m <==> exists i :: 0 <= i < |pairs| && pairs[i].0 == name
    ensures forall name :: name in m ==> m[name] == ValuesOf(pairs, name) && m[name] != []
  {
    if pairs == [] then map[]
    else
      var front := pairs[..|pairs| - 1];
      var last := pairs[|pairs| - 1];
      var m := Collect(front);
      assert pairs == front + [last];
      forall name ensures ValuesOf(pairs, name) == ValuesOf(front, name) + (if last.0 == name then [last.1] else []) {
        ValuesOfAppend(front, last, name);
      }
      if last.0 in m then m[last.0 := m[last.0] + [last.1]]
      else
        ValuesOfAbsent(front, last.0);
        m[last.0 := [last.1]]
  }

  /** `urlparse.parse_qs(query)` on the unescaped subset. */
  function ParseQs(query: string): map<string, seq<string>> {
    Collect(ParseQsl(query))
  }

  // ---------------------------------------------------------------------
  // URLQueryCoder

  /** Iterating a string yields its one-character strings. */
  function Chars(s: string): seq<string> {
    seq(|s|, i requires 0 <= i < |s| => [s[i]])
  }

  /** `sep.join(*args)`: `str.join` takes exactly one positional argument,
      an iterable of strings; any other number of them raises `TypeError`. */
  function StrJoin(sep: string, args: seq<seq<string>>): Result<string, Exception> {
    if |args| == 1 then Success(Join(sep, args[0])) else Failure(TypeError)
  }

  /** The item of `URLQueryCoder.encode` as written: `'='.join(str(k), str(v))`,
      two positional arguments. */
  function ItemAsWritten(item: (string, string)): Result<string, Exception> {
    StrJoin("=", [Chars(item.0), Chars(item.1)])
  }

  /** The item of `SimpleURLQueryCoder.encode`: `'='.join((str(k), str(v)))`,
      one tuple. */
  function ItemAsTuple(item: (string, string)): Result<string, Exception> {
    StrJoin("=", [[item.0, item.1]])
  }

  /** The strings a generator expression over `pairs` hands to `'&'.join`:
      it runs item by item, and the first item that raises ends the call. */
  function Generate(item: ((string, string)) -> Result<string, Exception>, pairs: seq<(string, string)>)
    : Result<seq<string>, Exception>
  {
    if pairs == [] then Success([])
    else
      var first :- item(pairs[0]);
      var rest :- Generate(item, pairs[1..]);
      Success([first] + rest)
  }

  /** The two-argument `join` raises on every item. */
  lemma GenerateAsWrittenFails(pairs: seq<(string, string)>)
    requires pairs != []
    ensures Generate(ItemAsWritten, pairs) == Failure(TypeError)
  {
  }

  /** The tuple `join` yields `k=v` for every item, in order. */
  lemma {:induction false} GenerateAsTuple(pairs: seq<(string, string)>)
    ensures Generate(ItemAsTuple, pairs) == Success(Render(pairs))
  {
    if pairs != [] {
      var p := pairs[0];
      assert Join("=", [p.0, p.1]) == p.0 + "=" + p.1 by {
        assert [p.0, p.1][1..] == [p.1];
      }
      GenerateAsTuple(pairs[1..]);
    }
  }

  /** A dictionary yields no items exactly when it is empty. */
  lemma ItemsEmpty(data: map<string, string>)
    ensures Items(data) == [] <==> data == map[]
  {
    if data != map[] {
      var k :| k in data;
      assert k in KeyOrder(data.Keys);
    }
  }

  /** `URLQueryCoder.encode` as written: `'&'.join` over the generator of
      two-argument `'='.join` calls. The empty dictionary runs no item and
      gives `''`; any item raises `TypeError`. */
  ghost function UrlQueryEncode(data: map<string, string>): (r: Result<string, Exception>)
    ensures r.Success? <==> data == map[]
    ensures r.Success? ==> r.value == ""
    ensures r.Failure? ==> r.error == TypeError
  {
    assert Items(data) == [] <==> data == map[] by { ItemsEmpty(data); }
    assert Items(data) != [] ==> Generate(ItemAsWritten, Items(data)) == Failure(TypeError) by {
      if Items(data) != [] { GenerateAsWrittenFails(Items(data)); }
    }
    var items :- Generate(ItemAsWritten, Items(data));
    Success(Join("&", items))
  }

  function UrlQueryDecode(query: string): map<string, seq<string>> {
    ParseQs(query)
  }

  /** Each key of a dictionary paired with the one-value list `parse_qs`
      gives back for it. */
  function AsLists(data: map<string, string>): map<string, seq<string>> {
    map k | k in data :: [data[k]]
  }

  /** Where the encoder as written succeeds, decoding gives the input back;
      it succeeds on the empty dictionary only. */
  lemma UrlQueryRoundTrip(data: map<string, string>)
    requires UrlQueryEncode(data).Success?
    ensures UrlQueryDecode(UrlQueryEncode(data).value) == AsLists(data)
  {
    UrlQueryDecodesEmpty();
  }

  /** The one-item dictionary of the regression tests does not encode. */
  lemma UrlQueryEncodeRejectsItem()
    ensures UrlQueryEncode(map["field" := "value"]) == Failure(TypeError)
  {
    assert "field" in map["field" := "value"];
  }

  /** `URLQueryCoder.encode` as evidently intended: the pair passed as one
      tuple, which is `SimpleURLQueryCoder.encode`. It never raises. */
  ghost function UrlQueryEncodeIntended(data: map<string, string>): (r: Result<string, Exception>)
    ensures r == Success(SimpleEncode(data))
  {
    GenerateAsTuple(Items(data));
    match Generate(ItemAsTuple, Items(data))
    case Failure(e) => Failure(e)
    case Success(items) => Success(Join("&", items))
  }

  /** The intended encoder is inverted by URLQueryCoder.decode on safe
      dictionaries. */
  lemma UrlQueryIntendedRoundTrip(data: map<string, string>)
    requires SafeForQuery(data)
    ensures UrlQueryDecode(UrlQueryEncodeIntended(data).value) == AsLists(data)
  {
    ParsesItems(data);
    CollectItems(data);
  }

  /** Every value of a repeated name, in order of occurrence; names that
      never carry a non-empty value are absent. */
  lemma UrlQueryDecodeCollects(query: string, name: string)
    ensures name in UrlQueryDecode(query) <==> ValuesOf(ParseQsl(query), name) != []
    ensures name in UrlQueryDecode(query) ==> UrlQueryDecode(query)[name] == ValuesOf(ParseQsl(query), name)
  {
    var pairs := ParseQsl(query);
    if ValuesOf(pairs, name) != [] {
      var i := ValuesOfWitness(pairs, name);
    }
  }

  /** A name with values occurs in some pair. */
  lemma {:induction false} ValuesOfWitness(pairs: seq<(string, string)>, name: string) returns (i: nat)
    requires ValuesOf(pairs, name) != []
    ensures i < |pairs| && pairs[i].0 == name
  {
    if pairs[0].0 == name {
      i := 0;
    } else {
      i := ValuesOfWitness(pairs[1..], name);
      i := i + 1;
    }
  }

  lemma UrlQueryDecodesEmpty()
    ensures UrlQueryDecode("") == map[]
  {
  }

  /** Pairs that all carry one name collect under that name alone. */
  lemma CollectOneName(pairs: seq<(string, string)>, name: string)
    requires pairs != [] && forall i :: 0 <= i < |pairs| ==> pairs[i].0 == name
    ensures Collect(pairs) == map[name := ValuesOf(pairs, name)]
  {
  }

  /** One `name=value` piece parses to that one pair. */
  lemma ParsesOnePair(name: string, value: string)
    requires SafeKey(name) && SafeValue(value)
    ensures NoSeparator(name + "=" + value)
    ensures ParseQsl(name + "=" + value) == [(name, value)]
  {
    var piece := name + "=" + value;
    RenderedParses([(name, value)]);
    assert Render([(name, value)]) == [piece];
    SplitWhole(piece);
  }

  /** A name given once maps to a one-element list. */
  lemma UrlQueryDecodesOne(name: string, value: string)
    requires SafeKey(name) && SafeValue(value)
    ensures UrlQueryDecode(name + "=" + value) == map[name := [value]]
  {
    ParsesOnePair(name, value);
    var pairs := [(name, value)];
    CollectOneName(pairs, name);
    assert ValuesOf(pairs[1..], name) == [];
  }

  /** Two safe pairs joined by either separator parse to those two pairs,
      in order. */
  lemma ParsesTwoPairs(name1: string, value1: string, c: char, name2: string, value2: string)
    requires SafeKey(name1) && SafeValue(value1) && SafeKey(name2) && SafeValue(value2)
    requires IsSeparator(c)
    ensures ParseQsl(name1 + "=" + value1 + [c] + name2 + "=" + value2) == [(name1, value1), (name2, value2)]
  {
    var one, two := name1 + "=" + value1, name2 + "=" + value2;
    assert name1 + "=" + value1 + [c] + name2 + "=" + value2 == one + [c] + two;
    ParsesOnePair(name1, value1);
    ParsesOnePair(name2, value2);
    SplitAfter(one, c, two);
    SplitWhole(one);
    SplitWhole(two);
    assert Split(one + [c] + two) == [one] + [two];
    NameValuesAppend([one], [two]);
  }

  /** A name given twice keeps both values, in order. */
  lemma UrlQueryDecodesRepeated(name: string, first: string, second: string)
    requires SafeKey(name) && SafeValue(first) && SafeValue(second)
    ensures UrlQueryDecode(name + "=" + first + "&" + name + "=" + second) == map[name := [first, second]]
  {
    ParsesTwoPairs(name, first, '&', name, second);
    var pairs := [(name, first), (name, second)];
    var query := name + "=" + first + "&" + name + "=" + second;
    assert ParseQsl(query) == pairs;
    assert UrlQueryDecode(query) == Collect(pairs);
    CollectOneName(pairs, name);
    assert ValuesOf(pairs, name) == [first, second] by {
      assert pairs[1..] == [(name, second)];
      assert ValuesOf(pairs[1..], name) == [second] + ValuesOf([], name);
    }
  }

  /** A piece without `=` is dropped. */
  lemma DropsPieceWithoutEquals(piece: string)
    requires NoSeparator(piece) && '=' !in piece
    ensures ParseQs(piece) == map[]
  {
    SplitWhole(piece);
  }

  /** A piece with an empty value is dropped. */
  lemma DropsEmptyValue(name: string)
    requires NoSeparator(name) && '=' !in name
    ensures ParseQs(name + "=") == map[]
  {
    var piece := name + "=";
    forall i | 0 <= i < |piece| ensures !IsSeparator(piece[i]) {
      if i < |name| {
        assert piece[i] == name[i];
      }
    }
    SplitWhole(piece);
    PartitionPair(name, "");
    assert name + "=" + "" == piece;
    assert NameValues([piece]) == NameValues([piece][1..]);
  }

  /** `;` separates pieces as `&` does. */
  lemma SemicolonSeparates(name1: string, value1: string, name2: string, value2: string)
    requires SafeKey(name1) && SafeValue(value1) && SafeKey(name2) && SafeValue(value2)
    requires name1 != name2
    ensures ParseQs(name1 + "=" + value1 + ";" + name2 + "=" + value2) == map[name1 := [value1], name2 := [value2]]
  {
    ParsesTwoPairs(name1, value1, ';', name2, value2);
    var pairs := [(name1, value1), (name2, value2)];
    assert ParseQsl(name1 + "=" + value1 + ";" + name2 + "=" + value2) == pairs;
    ValuesOfDistinct(pairs, 0);
    ValuesOfDistinct(pairs, 1);
  }

  /** `field` and `field=` decode to nothing. */
  lemma ParseQsDropsExamples()
    ensures ParseQs("field") == map[]
    ensures ParseQs("field=") == map[]
  {
    assert NoSeparator("field");
    DropsPieceWithoutEquals("field");
    DropsEmptyValue("field");
    assert "field" + "=" == "field=";
  }

  /** `a=1;b=2` decodes to two names. */
  lemma ParseQsSemicolonExample()
    ensures ParseQs("a=1;b=2") == map["a" := ["1"], "b" := ["2"]]
  {
    assert SafeKey("a") && SafeValue("1") && SafeKey("b") && SafeValue("2");
    SemicolonSeparates("a", "1", "b", "2");
    assert "a" + "=" + "1" + ";" + "b" + "=" + "2" == "a=1;b=2";
  }

  /** The decoding examples of the URLQueryCoder regression test. */
  lemma UrlQueryDecodeExamples()
    ensures UrlQueryDecode("") == map[]
    ensures UrlQueryDecode("field=value") == map["field" := ["value"]]
    ensures UrlQueryDecode("field=value&field=value") == map["field" := ["value", "value"]]
  {
    UrlQueryDecodesEmpty();
    assert SafeKey("field") && SafeValue("value");
    UrlQueryDecodesOne("field", "value");
    assert "field" + "=" + "value" == "field=value";
    UrlQueryDecodesRepeated("field", "value", "value");
    assert "field" + "=" + "value" + "&" + "field" + "=" + "value" == "field=value&field=value";
  }

  // ---------------------------------------------------------------------
  // SimpleURLQueryCoder

  /** The `k=v` strings of `pairs`, in order. */
  function Render(pairs: seq<(string, string)>): (items: seq<string>)
    ensures |items| == |pairs|
  {
    if pairs == [] then [] else [pairs[0].0 + "=" + pairs[0].1] + Render(pairs[1..])
  }

  /** The order in which a dictionary yields its keys: each key exactly once,
      in an order the model leaves open. */
  ghost function KeyOrder(keys: set<string>): (order: seq<string>)
    ensures forall k :: k in order <==> k in keys
    ensures forall i, j :: 0 <= i < j < |order| ==> order[i] != order[j]
    decreases keys
  {
    if keys == {} then []
    else
      var k :| k in keys;
      [k] + KeyOrder(keys - {k})
  }

  /** `data.items()` in that order. */
  ghost function Items(data: map<string, string>): seq<(string, string)> {
    var order := KeyOrder(data.Keys);
    seq(|order|, i requires 0 <= i < |order| => (order[i], data[order[i]]))
  }

  /** `SimpleURLQueryCoder.encode`. */
  ghost function SimpleEncode(data: map<string, string>): string {
    Join("&", Render(Items(data)))
  }

  /** Only the empty dictionary encodes to the empty string. */
  lemma SimpleEncodeEmpty(data: map<string, string>)
    ensures SimpleEncode(data) == "" <==> data == map[]
  {
  }

  /** The first value of each name `parse_qs` finds. */
  function SimpleDecoded(query: string): (data: map<string, string>)
    ensures data.Keys == ParseQs(query).Keys
    ensures forall name :: name in data ==> data[name] == ParseQs(query)[name][0]
  {
    var parsed := ParseQs(query);
    map name | name in parsed :: parsed[name][0]
  }

  /** The loop of `SimpleURLQueryCoder.decode`: every name's list replaced by
      its first value. Dafny's maps fix their value type, so the first values
      go into a second map beside the parsed one. */
  method FirstValues(parsed: map<string, seq<string>>) returns (data: map<string, string>)
    requires forall name :: name in parsed ==> parsed[name] != []
    ensures data.Keys == parsed.Keys
    ensures forall name :: name in data ==> data[name] == parsed[name][0]
  {
    data := map[];
    var pending := parsed.Keys;
    while pending != {}
      invariant pending <= parsed.Keys
      invariant data.Keys == parsed.Keys - pending
      invariant forall name :: name in data ==> data[name] == parsed[name][0]
      decreases pending
    {
      var name :| name in pending;
      data := data[name := parsed[name][0]];
      pending := pending - {name};
    }
  }

  /** `SimpleURLQueryCoder.decode`: `parse_qs`, then the first value of each
      name. */
  method SimpleDecode(query: string) returns (data: map<string, string>)
    ensures data.Keys == ParseQs(query).Keys
    ensures forall name :: name in data ==> data[name] == ParseQs(query)[name][0]
    ensures data == SimpleDecoded(query)
  {
    var parsed := ParseQs(query);
    data := FirstValues(parsed);
  }

  /** Keys and values the encoder writes unescaped and `parse_qs` reads back
      verbatim: no separator, no `%` or `+` (which `parse_qs` would unquote),
      no `=` in a key, and no empty value (which `parse_qs` drops). */
  predicate SafeKey(k: string) {
    NoSeparator(k) && '=' !in k && '%' !in k && '+' !in k
  }

  predicate SafeValue(v: string) {
    v != "" && NoSeparator(v) && '%' !in v && '+' !in v
  }

  predicate SafeForQuery(data: map<string, string>) {
    forall k :: k in data ==> SafeKey(k) && SafeValue(data[k])
  }

  lemma {:induction false} RenderedParses(pairs: seq<(string, string)>)
    requires forall i :: 0 <= i < |pairs| ==> SafeKey(pairs[i].0) && SafeValue(pairs[i].1)
    ensures NameValues(Render(pairs)) == pairs
    ensures forall i :: 0 <= i < |pairs| ==> NoSeparator(Render(pairs)[i])
  {
    if pairs != [] {
      var p := pairs[0];
      RenderedParses(pairs[1..]);
      PartitionPair(p.0, p.1);
      assert Render(pairs)[1..] == Render(pairs[1..]);
      assert [p] + pairs[1..] == pairs;
      var item := p.0 + "=" + p.1;
      assert NoSeparator(item) by {
        forall i | 0 <= i < |item| ensures !IsSeparator(item[i]) {
          if i < |p.0| {
            assert item[i] == p.0[i];
          } else if i > |p.0| {
            assert item[i] == p.1[i - |p.0| - 1];
          }
        }
      }
      forall i | 0 <= i < |pairs| ensures NoSeparator(Render(pairs)[i]) {
        if i > 0 {
          assert Render(pairs)[i] == Render(pairs[1..])[i - 1];
        }
      }
    }
  }

  /** With distinct names, each name carries exactly its own value. */
  lemma {:induction false} ValuesOfDistinct(pairs: seq<(string, string)>, i: nat)
    requires i < |pairs|
    requires forall j, k :: 0 <= j < k < |pairs| ==> pairs[j].0 != pairs[k].0
    ensures ValuesOf(pairs, pairs[i].0) == [pairs[i].1]
  {
    if i == 0 {
      ValuesOfAbsent(pairs[1..], pairs[0].0);
    } else {
      ValuesOfDistinct(pairs[1..], i - 1);
    }
  }

  lemma {:induction false} ValuesOfAbsent(pairs: seq<(string, string)>, name: string)
    requires forall j :: 0 <= j < |pairs| ==> pairs[j].0 != name
    ensures ValuesOf(pairs, name) == []
  {
    if pairs != [] {
      ValuesOfAbsent(pairs[1..], name);
    }
  }

  /** On a safe dictionary, `parse_qsl` reads back exactly the items the
      encoder wrote, in the same order. */
  lemma ParsesItems(data: map<string, string>)
    requires SafeForQuery(data)
    ensures ParseQsl(SimpleEncode(data)) == Items(data)
  {
    var pairs := Items(data);
    ItemsEmpty(data);
    if pairs != [] {
      RenderedParses(pairs);
      SplitJoin(Render(pairs));
    }
  }

  /** `parse_qs` of the items of a dictionary gives each key its one value. */
  lemma CollectItems(data: map<string, string>)
    ensures forall k :: k in Collect(Items(data)) <==> k in data
    ensures forall k :: k in data ==> Collect(Items(data))[k] == [data[k]]
  {
    var pairs := Items(data);
    var order := KeyOrder(data.Keys);
    assert forall j, k :: 0 <= j < k < |pairs| ==> pairs[j].0 != pairs[k].0;
    var parsed := Collect(pairs);
    forall k | k in data ensures k in parsed && parsed[k] == [data[k]] {
      assert k in order;
      var i :| 0 <= i < |order| && order[i] == k;
      assert pairs[i] == (k, data[k]);
      ValuesOfDistinct(pairs, i);
    }
    forall k | k in parsed ensures k in data {
      var i :| 0 <= i < |pairs| && pairs[i].0 == k;
      assert order[i] in order;
    }
  }

  /** SimpleURLQueryCoder round trip on safe dictionaries. */
  lemma SimpleRoundTrip(data: map<string, string>)
    requires SafeForQuery(data)
    ensures SimpleDecoded(SimpleEncode(data)) == data
  {
    ParsesItems(data);
    CollectItems(data);
  }

  /** The SimpleURLQueryCoder regression example. */
  lemma SimpleDecodeExample()
    ensures SimpleDecoded("field=value") == map["field" := "value"]
  {
    UrlQueryDecodeExamples();
  }
}
