/** The list that a multi-value input makes of typed or pasted text: quoted fields,
    separators, a cap on the number of values, and the removal of repetitions. */
module ValueList {
  import opened Wrappers

  // ------------------------------------------------------------------ trimming

  /** What `trim` removes: white space and line terminators. */
  predicate IsSpace(c: char) {
    || '\t' <= c <= '\r' || c == ' ' || c == '\U{A0}' || c == '\U{1680}' || '\U{2000}' <= c <= '\U{200A}'
    || c == '\U{2028}' || c == '\U{2029}' || c == '\U{202F}' || c == '\U{205F}' || c == '\U{3000}' || c == '\U{FEFF}'
  }

  function TrimLeft(s: string): string {
    if s != "" && IsSpace(s[0]) then TrimLeft(s[1..]) else s
  }

  function TrimRight(s: string): string {
    if s != "" && IsSpace(s[|s| - 1]) then TrimRight(s[..|s| - 1]) else s
  }

  function Trim(s: string): string {
    TrimRight(TrimLeft(s))
  }

  predicate Trimmed(s: string) {
    s != "" ==> !IsSpace(s[0]) && !IsSpace(s[|s| - 1])
  }

  lemma {:induction false} TrimLeftStops(s: string)
    ensures var t := TrimLeft(s); t != "" ==> !IsSpace(t[0])
    ensures forall c :: c in TrimLeft(s) ==> c in s
    decreases |s|
  {
    if s != "" && IsSpace(s[0]) { TrimLeftStops(s[1..]); }
  }

  lemma {:induction false} TrimRightStops(s: string)
    requires s != "" ==> !IsSpace(s[0])
    ensures Trimmed(TrimRight(s))
    ensures forall c :: c in TrimRight(s) ==> c in s
    decreases |s|
  {
    if s != "" && IsSpace(s[|s| - 1]) { TrimRightStops(s[..|s| - 1]); }
  }

  lemma TrimTrims(s: string)
    ensures Trimmed(Trim(s)) && (forall c :: c in Trim(s) ==> c in s)
    ensures Trimmed(s) ==> Trim(s) == s
  {
    TrimLeftStops(s);
    TrimRightStops(TrimLeft(s));
  }

  // ------------------------------------------------------------------- parsing

  predicate IsSeparator(c: char) {
    c == ',' || c == '\n' || c == '\r'
  }

  /** The fields of a text: quotes toggle and vanish, and outside them every separator
      ends a field. */
  function Split(raw: string, inQuotes: bool): (fields: seq<string>)
    ensures |fields| > 0
  {
    if raw == "" then [""]
    else if raw[0] == '"' then Split(raw[1..], !inQuotes)
    else if !inQuotes && IsSeparator(raw[0]) then [""] + Split(raw[1..], false)
    else Prepend([raw[0]], Split(raw[1..], inQuotes))
  }

  function Prepend(s: string, fields: seq<string>): (r: seq<string>)
    requires |fields| > 0
    ensures |r| == |fields|
  {
    [s + fields[0]] + fields[1..]
  }

  /** The fields that are left after trimming. */
  function Values(fields: seq<string>): seq<string> {
    if fields == [] then []
    else (if Trim(fields[0]) != "" then [Trim(fields[0])] else []) + Values(fields[1..])
  }

  function Parse(raw: string): seq<string> {
    Values(Split(raw, false))
  }

  lemma ValuesOfOne(s: string)
    ensures Values([s]) == if Trim(s) != "" then [Trim(s)] else []
  {
    assert [s][1..] == [];
  }

  lemma ValuesAfter(s: string, fields: seq<string>)
    ensures Values([s] + fields) == (if Trim(s) != "" then [Trim(s)] else []) + Values(fields)
  {
    assert ([s] + fields)[1..] == fields;
  }

  lemma PrependNothing(fields: seq<string>)
    requires |fields| > 0
    ensures Prepend("", fields) == fields
  {
    assert "" + fields[0] == fields[0] && [fields[0]] + fields[1..] == fields;
  }

  lemma PrependTwice(s: string, t: string, fields: seq<string>)
    requires |fields| > 0
    ensures Prepend(s, Prepend(t, fields)) == Prepend(s + t, fields)
  {
    assert s + (t + fields[0]) == (s + t) + fields[0];
    assert Prepend(t, fields)[1..] == fields[1..];
  }

  function Kept(field: string): seq<string> {
    if Trim(field) != "" then [Trim(field)] else []
  }

  lemma KeptNothing()
    ensures Kept("") == []
  {
  }

  /** The values still to come from `rest` when a field has begun with `current`. */
  function Pending(current: string, rest: string, inQuotes: bool): seq<string> {
    Values(Prepend(current, Split(rest, inQuotes)))
  }

  lemma PendingAtStart(raw: string)
    ensures Pending("", raw, false) == Parse(raw)
  {
    PrependNothing(Split(raw, false));
  }

  lemma PendingAtQuote(current: string, rest: string, inQuotes: bool)
    requires rest != "" && rest[0] == '"'
    ensures Pending(current, rest, inQuotes) == Pending(current, rest[1..], !inQuotes)
  {
  }

  /** A separator ends the field begun with `current`. */
  lemma PendingAtSeparator(current: string, rest: string)
    requires rest != "" && IsSeparator(rest[0])
    ensures Pending(current, rest, false) == Kept(current) + Pending("", rest[1..], false)
  {
    var fields := Split(rest[1..], false);
    assert current + "" == current && ([""] + fields)[1..] == fields;
    ValuesAfter(current, fields);
    PrependNothing(fields);
  }

  lemma PendingInField(current: string, rest: string, inQuotes: bool)
    requires rest != "" && rest[0] != '"' && (inQuotes || !IsSeparator(rest[0]))
    ensures Pending(current, rest, inQuotes) == Pending(current + [rest[0]], rest[1..], inQuotes)
  {
    PrependTwice(current, [rest[0]], Split(rest[1..], inQuotes));
  }

  lemma PendingAtEnd(current: string, inQuotes: bool)
    ensures Pending(current, "", inQuotes) == Kept(current)
  {
    assert current + "" == current && Prepend(current, [""]) == [current];
    ValuesOfOne(current);
  }

  /** The loop is the split. The line feed of CR LF, which it skips, would only have
      ended an empty field. */
  method ParseCsvLikeValues(raw: string) returns (result: seq<string>)
    ensures result == Parse(raw)
  {
    hide Pending, Parse, Trim;
    result := [];
    var current, inQuotes, i := "", false, 0;
    PendingAtStart(raw);
    assert raw[0..] == raw;
    while i < |raw|
      invariant i <= |raw|
      invariant Parse(raw) == result + Pending(current, raw[i..], inQuotes)
    {
      var c := raw[i];
      assert raw[i..][1..] == raw[i + 1..];
      if c == '"' {
        PendingAtQuote(current, raw[i..], inQuotes);
        inQuotes := !inQuotes;
      } else if !inQuotes && IsSeparator(c) {
        PendingAtSeparator(current, raw[i..]);
        var trimmed := Trim(current);
        if trimmed != "" { result := result + [trimmed]; }
        current := "";
        if c == '\r' && i + 1 < |raw| && raw[i + 1] == '\n' {
          PendingAtSeparator("", raw[i + 1..]);
          KeptNothing();
          assert raw[i + 1..][1..] == raw[i + 2..];
          i := i + 1;
        }
      } else {
        PendingInField(current, raw[i..], inQuotes);
        current := current + [c];
      }
      i := i + 1;
    }
    assert raw[i..] == "";
    PendingAtEnd(current, inQuotes);
    var trimmed := Trim(current);
    if trimmed != "" { result := result + [trimmed]; }
  }

  // ---------------------------------------------------------- what comes out

  predicate IsValue(s: string) {
    s != "" && Trimmed(s) && '"' !in s
  }

  lemma {:induction false} FieldsHaveNoQuotes(raw: string, inQuotes: bool)
    ensures forall f :: f in Split(raw, inQuotes) ==> '"' !in f
    decreases |raw|
  {
    if raw != "" {
      var next := if raw[0] == '"' then !inQuotes else if !inQuotes && IsSeparator(raw[0]) then false else inQuotes;
      FieldsHaveNoQuotes(raw[1..], next);
    }
  }

  lemma {:induction false} ValuesAreTrimmed(fields: seq<string>)
    requires forall f :: f in fields ==> '"' !in f
    ensures forall v :: v in Values(fields) ==> IsValue(v)
    decreases |fields|
  {
    if fields != [] {
      TrimTrims(fields[0]);
      ValuesAreTrimmed(fields[1..]);
    }
  }

  /** Every input whatever yields only trimmed, non-empty, quote-free values. */
  lemma ParsedValuesAreClean(raw: string)
    ensures forall v :: v in Parse(raw) ==> IsValue(v)
  {
    FieldsHaveNoQuotes(raw, false);
    ValuesAreTrimmed(Split(raw, false));
  }

  // --------------------------------------------------------------- round trip

  datatype Separator = Comma | Lf | Cr | CrLf

  function Text(s: Separator): string {
    match s
    case Comma => ","
    case Lf => "\n"
    case Cr => "\r"
    case CrLf => "\r\n"
  }

  function Quote(v: string): string {
    ['"'] + v + ['"']
  }

  /** Every value quoted, joined by any mixture of separators. */
  function Write(values: seq<string>, separators: seq<Separator>): string
    requires |separators| == |values|
  {
    if values == [] then ""
    else Quote(values[0]) + (if |values| == 1 then "" else Text(separators[0]) + Write(values[1..], separators[1..]))
  }

  lemma {:induction false} SplitInQuotes(v: string, rest: string)
    requires '"' !in v
    ensures Split(v + rest, true) == Prepend(v, Split(rest, true))
    decreases |v|
  {
    if v == "" {
      assert v + rest == rest;
      PrependNothing(Split(rest, true));
    } else {
      assert (v + rest)[1..] == v[1..] + rest;
      SplitInQuotes(v[1..], rest);
      PrependTwice([v[0]], v[1..], Split(rest, true));
      assert [v[0]] + v[1..] == v;
    }
  }

  lemma SplitQuoted(v: string, rest: string)
    requires '"' !in v
    ensures Split(Quote(v) + rest, false) == Prepend(v, Split(rest, false))
  {
    var tail := ['"'] + rest;
    assert (Quote(v) + rest)[1..] == v + tail;
    SplitInQuotes(v, tail);
    assert tail[1..] == rest;
  }

  lemma ValuesAfterSeparator(s: Separator, rest: string)
    ensures
      var f := Split(Text(s) + rest, false);
      f[0] == "" && Values(f[1..]) == Values(Split(rest, false))
  {
    var t := Text(s) + rest;
    if s.CrLf? {
      var u := "\n" + rest;
      assert t[1..] == u && u[1..] == rest;
      ValuesAfter("", Split(rest, false));
    } else {
      assert t[1..] == rest;
    }
  }

  /** Quoting any list of clean values, and joining them by commas, LF, CR or CR LF in
      any mixture, parses back to exactly that list. */
  lemma {:induction false} WriteThenParse(values: seq<string>, separators: seq<Separator>)
    requires |separators| == |values| && forall v :: v in values ==> IsValue(v)
    ensures Parse(Write(values, separators)) == values
    decreases |values|
  {
    if values != [] {
      var v := values[0];
      assert v in values;
      TrimTrims(v);
      hide Values, Split, Trim, Trimmed, Quote;
      if |values| == 1 {
        SplitQuoted(v, "");
        assert Write(values, separators) == Quote(v) + "";
        SplitNothing();
        assert v + "" == v && Prepend(v, [""]) == [v];
        ValuesOfOne(v);
        assert values == [v];
      } else {
        var rest := Text(separators[0]) + Write(values[1..], separators[1..]);
        SplitQuoted(v, rest);
        ValuesAfterSeparator(separators[0], Write(values[1..], separators[1..]));
        var f := Split(rest, false);
        ValuesAfter(v, f[1..]);
        assert v + "" == v && Prepend(v, f) == [v] + f[1..];
        WriteThenParse(values[1..], separators[1..]);
        assert values == [v] + values[1..];
      }
    }
  }

  lemma SplitNothing()
    ensures Split("", false) == [""]
  {
  }

  /** So writing a parsed list and parsing it again changes nothing, from any text. */
  lemma ParseIsStable(raw: string, separators: seq<Separator>)
    requires |separators| == |Parse(raw)|
    ensures Parse(Write(Parse(raw), separators)) == Parse(raw)
  {
    ParsedValuesAreClean(raw);
    WriteThenParse(Parse(raw), separators);
  }

  // ---------------------------------------------------------------- the list

  function Filtered(candidates: seq<string>, normalize: string -> string): seq<string> {
    if candidates == [] then []
    else
      (if normalize(candidates[0]) != "" then [normalize(candidates[0])] else []) + Filtered(candidates[1..], normalize)
  }

  /** How many of `n` values still fit beside `present` ones. */
  function Room(present: nat, n: nat, maxValues: Option<int>): (k: nat)
    ensures k <= n
    ensures maxValues.Some? && present <= maxValues.value ==> present + k <= maxValues.value
    ensures k < n ==> maxValues.Some? && present + k >= maxValues.value
  {
    if maxValues.None? then n
    else if maxValues.value <= present then 0
    else if maxValues.value - present < n then maxValues.value - present
    else n
  }

  lemma FilteredFrom(candidates: seq<string>, normalize: string -> string, i: nat)
    requires i < |candidates|
    ensures Filtered(candidates[i..], normalize)
         == (if normalize(candidates[i]) != "" then [normalize(candidates[i])] else [])
            + Filtered(candidates[i + 1..], normalize)
  {
    assert candidates[i..][1..] == candidates[i + 1..];
  }

  lemma FilteredNothing(candidates: seq<string>, normalize: string -> string)
    requires candidates == []
    ensures Filtered(candidates, normalize) == []
  {
  }

  /** The normalized candidates, without the empty ones. */
  method Normalize(candidates: seq<string>, normalize: string -> string) returns (normalized: seq<string>)
    ensures normalized == Filtered(candidates, normalize)
  {
    normalized := [];
    hide Filtered;
    assert candidates[0..] == candidates;
    for i := 0 to |candidates|
      invariant Filtered(candidates, normalize) == normalized + Filtered(candidates[i..], normalize)
    {
      FilteredFrom(candidates, normalize, i);
      var v := normalize(candidates[i]);
      if v != "" { normalized := normalized + [v]; }
    }
    FilteredNothing(candidates[|candidates|..], normalize);
  }

  /** The values that were there, then the added ones, cut at the cap. */
  method AddValues(values: seq<string>, candidates: seq<string>, normalize: string -> string, maxValues: Option<int>)
    returns (next: seq<string>)
    ensures
      var added := Filtered(candidates, normalize);
      next == values + added[..Room(|values|, |added|, maxValues)]
    ensures maxValues.Some? ==> |next| <= maxValues.value || next == values
  {
    hide Filtered;
    var normalized := Normalize(candidates, normalize);
    next := values;
    if |normalized| == 0 { return; }
    var k := 0;
    while k < |normalized| && !(maxValues.Some? && |next| >= maxValues.value)
      invariant k <= |normalized| && next == values + normalized[..k]
      invariant k <= Room(|values|, |normalized|, maxValues)
    {
      next := next + [normalized[k]];
      k := k + 1;
    }
  }

  /** Every value at its first place only. */
  function FirstOccurrences(list: seq<string>): seq<string> {
    if list == [] then []
    else
      var n := |list| - 1;
      FirstOccurrences(list[..n]) + if list[n] in list[..n] then [] else [list[n]]
  }

  method Deduplicate(list: seq<string>) returns (r: seq<string>)
    ensures r == FirstOccurrences(list)
  {
    var seen: set<string> := {};
    r := [];
    for i := 0 to |list|
      invariant r == FirstOccurrences(list[..i])
      invariant forall v :: v in seen <==> v in list[..i]
    {
      assert list[..i + 1][..i] == list[..i] && list[..i + 1][i] == list[i];
      if list[i] !in seen {
        r := r + [list[i]];
        seen := seen + {list[i]};
      }
    }
    assert list[..|list|] == list;
  }

  /** The same values, none twice. */
  lemma {:induction false} DeduplicationKeepsValues(list: seq<string>)
    ensures
      var r := FirstOccurrences(list);
      (forall v :: v in r <==> v in list) && forall i, j :: 0 <= i < j < |r| ==> r[i] != r[j]
    decreases |list|
  {
    if list != [] {
      var n := |list| - 1;
      DeduplicationKeepsValues(list[..n]);
      assert list == list[..n] + [list[n]];
    }
  }

  /** `u` occurs at a place before every occurrence of `v`. */
  ghost predicate Before(list: seq<string>, u: string, v: string) {
    exists i :: 0 <= i < |list| && list[i] == u && v !in list[..i + 1]
  }

  /** The order is that of the first occurrences. */
  lemma {:induction false} DeduplicationKeepsOrder(list: seq<string>, i: nat, j: nat)
    requires i < j < |FirstOccurrences(list)|
    ensures Before(list, FirstOccurrences(list)[i], FirstOccurrences(list)[j])
    decreases |list|
  {
    var n := |list| - 1;
    var r, front := FirstOccurrences(list), FirstOccurrences(list[..n]);
    if j < |front| {
      DeduplicationKeepsOrder(list[..n], i, j);
      var k :| 0 <= k < n && list[..n][k] == front[i] && front[j] !in list[..n][..k + 1];
      assert list[..n][..k + 1] == list[..k + 1] && list[k] == r[i];
    } else {
      DeduplicationKeepsValues(list[..n]);
      assert front[i] in list[..n];
      var k :| 0 <= k < n && list[..n][k] == front[i];
      assert list[k] == r[i] && forall v :: v in list[..k + 1] ==> v in list[..n];
    }
  }

  /** Values that were already distinct stay in front, untouched, whatever is added. */
  lemma {:induction false} DistinctValuesStay(values: seq<string>, added: seq<string>)
    requires forall i, j :: 0 <= i < j < |values| ==> values[i] != values[j]
    ensures values <= FirstOccurrences(values + added)
    decreases |values| + |added|
  {
    if added == [] {
      assert values + added == values;
      if values != [] {
        var n := |values| - 1;
        DistinctValuesStay(values[..n], []);
        assert values[..n] + [] == values[..n] && values == values[..n] + [values[n]];
        DeduplicationKeepsValues(values[..n]);
        assert |FirstOccurrences(values[..n])| <= n by { ShorterThanList(values[..n]); }
      }
    } else {
      var m := |added| - 1;
      DistinctValuesStay(values, added[..m]);
      assert (values + added)[..|values| + m] == values + added[..m];
    }
  }

  lemma {:induction false} ShorterThanList(list: seq<string>)
    ensures |FirstOccurrences(list)| <= |list|
    decreases |list|
  {
    if list != [] { ShorterThanList(list[..|list| - 1]); }
  }
}
