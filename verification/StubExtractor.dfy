/** The line-based stub provider: labels, fields and their values. */
module StubExtractor {
  import opened Prelude
  import opened Domain
  import opened Strings
  import KeyFields

  /** Library functions nothing is assumed about: `unicode.ToLower` and
      `strconv.ParseFloat`. */
  datatype Library = Library(lower: char -> char, parse: string -> Option<real>)

  // ----- labelled lines -----

  /** The normalised label and the value of a usable line. */
  function Labelled(lib: Library, line: string): Option<(string, string)> {
    var i := IndexOf(line, ':');
    if i == |line| then None
    else
      var key, value := Map(lib.lower, TrimSpace(line[..i])), TrimSpace(line[i + 1..]);
      if key == "" || value == "" then None else Some((key, value))
  }

  /** What stands before the colon at `c`, the line's first, is the label, trimmed and
      in lower case; what stands after it is the value, trimmed; neither is empty. */
  ghost predicate ReadsAt(lib: Library, line: string, c: nat, key: string, value: string) {
    && c < |line| && line[c] == ':' && ':' !in line[..c]
    && key == Map(lib.lower, TrimSpace(line[..c])) && key != ""
    && value == TrimSpace(line[c + 1..]) && value != ""
  }

  lemma FirstColon(line: string, c: nat)
    requires c < |line| && line[c] == ':' && ':' !in line[..c]
    ensures IndexOf(line, ':') == c
  {
    assert line == line[..c] + [':'] + line[c + 1..];
    IndexOfFirst(line[..c], ':', line[c + 1..]);
  }

  lemma LabelledReads(lib: Library, line: string)
    requires Labelled(lib, line).Some?
    ensures ReadsAt(lib, line, IndexOf(line, ':'), Labelled(lib, line).value.0, Labelled(lib, line).value.1)
  {
  }

  lemma ReadsLabelled(lib: Library, line: string, c: nat, key: string, value: string)
    requires ReadsAt(lib, line, c, key, value)
    ensures Labelled(lib, line) == Some((key, value))
  {
    FirstColon(line, c);
  }

  lemma {:induction false} LabelledIff(lib: Library, line: string, key: string, value: string)
    ensures Labelled(lib, line) == Some((key, value)) <==> exists c: nat :: ReadsAt(lib, line, c, key, value)
  {
    if c: nat :| ReadsAt(lib, line, c, key, value) {
      ReadsLabelled(lib, line, c, key, value);
    }
    if Labelled(lib, line) == Some((key, value)) {
      LabelledReads(lib, line);
    }
  }

  /** A line read: its label and value, if it is usable. */
  type Reading = Option<(string, string)>

  ghost function Readings(lib: Library, text: string): seq<Reading> {
    var lines := Split(text, '\n');
    seq(|lines|, i requires 0 <= i < |lines| => Labelled(lib, lines[i]))
  }

  predicate Carries(rs: seq<Reading>, i: nat, l: string) {
    i < |rs| && rs[i].Some? && rs[i].value.0 == l
  }

  /** `value` stands on the last usable line labelled `l`. */
  ghost predicate LastValue(rs: seq<Reading>, l: string, value: string) {
    exists i: nat :: Carries(rs, i, l) && rs[i].value.1 == value && forall j :: i < j < |rs| ==> !Carries(rs, j, l)
  }

  /** Each label of a usable line, with the value of its last usable line. */
  ghost predicate IsLabelMap(rs: seq<Reading>, labels: map<string, string>) {
    && (forall i :: 0 <= i < |rs| && rs[i].Some? ==> rs[i].value.0 in labels)
    && (forall l :: l in labels ==> LastValue(rs, l, labels[l]))
  }

  lemma LabelMapExtends(rs: seq<Reading>, r: Reading, before: map<string, string>, after: map<string, string>)
    requires IsLabelMap(rs, before)
    requires after == match r case None => before case Some(p) => before[p.0 := p.1]
    ensures IsLabelMap(rs + [r], after)
  {
    var all, n := rs + [r], |rs|;
    forall l | l in after ensures LastValue(all, l, after[l]) {
      if Carries(all, n, l) {
        assert Carries(all, n, l);
      } else {
        var i: nat :| Carries(rs, i, l) && rs[i].value.1 == before[l] && forall j :: i < j < n ==> !Carries(rs, j, l);
        assert Carries(all, i, l);
        assert forall j :: i < j < n ==> Carries(all, j, l) == Carries(rs, j, l);
      }
    }
  }

  /** There is only one such map. */
  lemma {:induction false} LabelMapIsUnique(rs: seq<Reading>, a: map<string, string>, b: map<string, string>)
    requires IsLabelMap(rs, a) && IsLabelMap(rs, b)
    ensures a == b
  {
    forall l ensures l in a <==> l in b
             ensures l in a && l in b ==> a[l] == b[l]
    {
      if l in a {
        assert LastValue(rs, l, a[l]);
      }
      if l in b {
        assert LastValue(rs, l, b[l]);
      }
    }
  }

  method ParseLabelledLines(lib: Library, text: string) returns (labels: map<string, string>)
    ensures IsLabelMap(Readings(lib, text), labels)
    ensures forall l :: l in labels ==> l != "" && labels[l] != "" && '\n' !in labels[l]
  {
    var lines := Split(text, '\n');
    ghost var rs := Readings(lib, text);
    labels := map[];
    var i := 0;
    while i < |lines|
      invariant 0 <= i <= |lines|
      invariant IsLabelMap(rs[..i], labels)
      invariant forall l :: l in labels ==> l != "" && labels[l] != "" && '\n' !in labels[l]
    {
      assert lines[i] in lines && rs[..i + 1] == rs[..i] + [rs[i]];
      ghost var before := labels;
      labels := ReadLine(lib, lines[i], labels);
      LabelMapExtends(rs[..i], rs[i], before, labels);
      i := i + 1;
    }
    assert rs[..i] == rs;
  }

  method ReadLine(lib: Library, line: string, before: map<string, string>) returns (labels: map<string, string>)
    requires '\n' !in line
    ensures labels == match Labelled(lib, line) case None => before case Some(p) => before[p.0 := p.1]
    ensures forall l :: l in labels ==> (l in before && labels[l] == before[l]) || (l != "" && labels[l] != "" && '\n' !in labels[l])
  {
    labels := before;
    var colon := IndexOf(line, ':');
    if colon < |line| {
      TrimKeepsOut(line[colon + 1..], '\n');
      var key, value := Map(lib.lower, TrimSpace(line[..colon])), TrimSpace(line[colon + 1..]);
      if key != "" && value != "" {
        labels := labels[key := value];
      }
    }
  }

  // ----- fields -----

  /** A field's name as labels spell it. */
  function FieldKey(lib: Library, name: string): string {
    Map(lib.lower, Map((c: char) => if c == '_' then ' ' else c, name))
  }

  predicate Matches(lib: Library, key: string, name: string) {
    Contains(FieldKey(lib, name), key)
  }

  /** The non-blank pieces of a list, trimmed, in order. */
  function Pieces(parts: seq<string>): seq<Value> {
    if parts == [] then []
    else
      var p := TrimSpace(parts[|parts| - 1]);
      Pieces(parts[..|parts| - 1]) + if p == "" then [] else [Text(p)]
  }

  /** `xs` are the pieces, each trimmed, without the empty ones, in their order: the
      items are those of `n` pieces fewer, and the last piece if it is not blank. */
  ghost predicate ListedIn(parts: seq<string>, xs: seq<Value>) {
    if parts == [] then xs == []
    else
      var n := |parts| - 1;
      if TrimSpace(parts[n]) == "" then ListedIn(parts[..n], xs)
      else xs != [] && xs[|xs| - 1] == Text(TrimSpace(parts[n])) && ListedIn(parts[..n], xs[..|xs| - 1])
  }

  lemma {:induction false} PiecesAreListed(parts: seq<string>)
    ensures ListedIn(parts, Pieces(parts))
  {
    if parts != [] {
      var n := |parts| - 1;
      PiecesAreListed(parts[..n]);
      if TrimSpace(parts[n]) == "" {
        assert Pieces(parts) == Pieces(parts[..n]);
      } else {
        assert Pieces(parts)[..|Pieces(parts)| - 1] == Pieces(parts[..n]);
      }
    }
  }

  function Converted(lib: Library, raw: string, ty: string): Field {
    if ty == "number" then
      match lib.parse(TrimSpace(raw))
      case Some(n) => Field(Num(n), 0.9)
      case None => Field(Text(raw), 0.5)
    else if ty == "array" then Field(Items(Pieces(Split(raw, ','))), 0.9)
    else Field(Text(raw), 0.9)
  }

  method ConvertField(lib: Library, raw: string, ty: string) returns (f: Field)
    ensures f == Converted(lib, raw, ty)
    ensures ty == "number" && lib.parse(TrimSpace(raw)).Some? ==> f == Field(Num(lib.parse(TrimSpace(raw)).value), 0.9)
    ensures ty == "number" && lib.parse(TrimSpace(raw)).None? ==> f == Field(Text(raw), 0.5)
    ensures ty == "array" ==> f.value.Items? && f.confidence == 0.9 && ListedIn(Split(raw, ','), f.value.xs)
    ensures ty != "number" && ty != "array" ==> f == Field(Text(raw), 0.9)
  {
    if ty == "number" {
      var n := lib.parse(TrimSpace(raw));
      if n.Some? {
        return Field(Num(n.value), 0.9);
      }
      return Field(Text(raw), 0.5);
    }
    if ty != "array" {
      return Field(Text(raw), 0.9);
    }
    var parts := Split(raw, ',');
    var items: seq<Value> := [];
    var i := 0;
    while i < |parts|
      invariant 0 <= i <= |parts|
      invariant items == Pieces(parts[..i])
    {
      assert parts[..i + 1][..i] == parts[..i];
      var p := TrimSpace(parts[i]);
      if p != "" {
        items := items + [Text(p)];
      }
      i := i + 1;
    }
    assert parts[..i] == parts;
    PiecesAreListed(parts);
    return Field(Items(items), 0.9);
  }

  /** One field of an extraction: the converted value of some matching label, or
      nothing when no label matches. */
  ghost predicate Extracts(lib: Library, labels: map<string, string>, name: string, ty: string, f: Field) {
    if exists l :: l in labels && Matches(lib, l, name)
    then exists l :: l in labels && Matches(lib, l, name) && f == Converted(lib, labels[l], ty)
    else f == Field(Null, 0.0)
  }

  ghost predicate IsExtraction(lib: Library, labels: map<string, string>, schema: map<string, string>, fields: map<string, Field>) {
    fields.Keys == schema.Keys && forall n :: n in schema ==> Extracts(lib, labels, n, schema[n], fields[n])
  }

  /** The label stands somewhere in the name, with every underscore of the name a
      blank and every character in lower case. */
  ghost predicate OccursIn(lib: Library, l: string, name: string) {
    var key := seq(|name|, i requires 0 <= i < |name| => lib.lower(if name[i] == '_' then ' ' else name[i]));
    exists i :: 0 <= i <= |key| && l <= key[i..]
  }

  /** The field is missing exactly when no label occurs in its name, and otherwise is
      the conversion of the value of one that does. */
  ghost predicate FilledFrom(lib: Library, labels: map<string, string>, name: string, ty: string, f: Field) {
    && (f.value == Null <==> forall l :: l in labels ==> !OccursIn(lib, l, name))
    && (f.value == Null ==> f.confidence == 0.0)
    && (f.value != Null ==> exists l :: l in labels && OccursIn(lib, l, name) && f == Converted(lib, labels[l], ty))
  }

  lemma {:induction false} MatchesIff(lib: Library, l: string, name: string)
    ensures Matches(lib, l, name) <==>
      var key := seq(|name|, i requires 0 <= i < |name| => lib.lower(if name[i] == '_' then ' ' else name[i]));
      exists i :: 0 <= i <= |key| && l <= key[i..]
  {
    var key := seq(|name|, i requires 0 <= i < |name| => lib.lower(if name[i] == '_' then ' ' else name[i]));
    assert FieldKey(lib, name) == key;
    if i :| 0 <= i <= |key| && l <= key[i..] {
      assert OccursAt(key, l, i);
    }
    if Contains(key, l) {
      var i :| 0 <= i <= |key| && OccursAt(key, l, i);
      assert l <= key[i..];
    }
  }

  lemma ExtractsMeans(lib: Library, labels: map<string, string>, name: string, ty: string, f: Field)
    requires Extracts(lib, labels, name, ty, f)
    ensures FilledFrom(lib, labels, name, ty, f)
  {
    forall l ensures Matches(lib, l, name) <==> OccursIn(lib, l, name) {
      MatchesIff(lib, l, name);
    }
  }

  lemma AllFilled(lib: Library, labels: map<string, string>, schema: map<string, string>, fields: map<string, Field>)
    requires IsExtraction(lib, labels, schema, fields)
    ensures forall n :: n in schema ==> FilledFrom(lib, labels, n, schema[n], fields[n])
  {
    forall n | n in schema ensures FilledFrom(lib, labels, n, schema[n], fields[n]) {
      ExtractsMeans(lib, labels, n, schema[n], fields[n]);
    }
  }

  method Extract(lib: Library, text: string, schema: map<string, string>) returns (ghost labels: map<string, string>, fields: map<string, Field>)
    ensures IsLabelMap(Readings(lib, text), labels) && IsExtraction(lib, labels, schema, fields)
    ensures forall n :: n in schema ==> FilledFrom(lib, labels, n, schema[n], fields[n])
    ensures forall n :: n in fields ==> SingleLine(fields[n].value)
  {
    var parsed := ParseLabelledLines(lib, text);
    labels := parsed;
    fields := map[];
    var rest := schema.Keys;
    while rest != {}
      invariant rest <= schema.Keys && fields.Keys == schema.Keys - rest
      invariant forall n :: n in fields ==> Extracts(lib, labels, n, schema[n], fields[n])
      invariant forall n :: n in fields ==> SingleLine(fields[n].value)
      decreases |rest|
    {
      var name :| name in rest;
      var f := ExtractOne(lib, parsed, name, schema[name]);
      fields := fields[name := f];
      rest := rest - {name};
    }
    AllFilled(lib, labels, schema, fields);
  }

  /** The inner loop: the first matching label map iteration happens to meet. */
  method ExtractOne(lib: Library, labels: map<string, string>, name: string, ty: string) returns (f: Field)
    requires forall l :: l in labels ==> '\n' !in labels[l]
    ensures Extracts(lib, labels, name, ty, f) && SingleLine(f.value)
  {
    var rest := labels.Keys;
    while rest != {}
      invariant rest <= labels.Keys
      invariant forall l :: l in labels && l !in rest ==> !Matches(lib, l, name)
      decreases |rest|
    {
      var key :| key in rest;
      if Matches(lib, key, name) {
        f := ConvertField(lib, labels[key], ty);
        ConvertedIsSingleLine(lib, labels[key], ty);
        return;
      }
      rest := rest - {key};
    }
    return Field(Null, 0.0);
  }

  /** A field is missing exactly when no label is part of its name. */
  lemma {:induction false} MissingIffUnmatched(lib: Library, labels: map<string, string>, schema: map<string, string>, fields: map<string, Field>, n: string)
    requires IsExtraction(lib, labels, schema, fields) && n in schema
    ensures fields[n].value == Null <==> forall l :: l in labels ==> !Matches(lib, l, n)
    ensures fields[n].value == Null <==> fields[n].confidence == 0.0
    ensures 0.0 <= fields[n].confidence <= 1.0
  {
    assert Extracts(lib, labels, n, schema[n], fields[n]);
  }

  // ----- does map order matter? -----

  /** All labels that match a field convert to the same value. */
  ghost predicate Unambiguous(lib: Library, labels: map<string, string>, schema: map<string, string>) {
    forall n, k, l :: n in schema && k in labels && l in labels && Matches(lib, k, n) && Matches(lib, l, n) ==>
      Converted(lib, labels[k], schema[n]) == Converted(lib, labels[l], schema[n])
  }

  /** One extraction: for every field the label `prefer` if it matches. */
  ghost function Preferring(lib: Library, labels: map<string, string>, schema: map<string, string>, prefer: string): map<string, Field> {
    map n | n in schema ::
      if prefer in labels && Matches(lib, prefer, n) then Converted(lib, labels[prefer], schema[n])
      else if exists l :: l in labels && Matches(lib, l, n)
      then (var l :| l in labels && Matches(lib, l, n); Converted(lib, labels[l], schema[n]))
      else Field(Null, 0.0)
  }

  lemma PreferringIsExtraction(lib: Library, labels: map<string, string>, schema: map<string, string>, prefer: string)
    ensures IsExtraction(lib, labels, schema, Preferring(lib, labels, schema, prefer))
  {
  }

  /** The result is independent of map order exactly when no field has two
      matching labels with different values. */
  lemma {:induction false} OrderMattersIffAmbiguous(lib: Library, labels: map<string, string>, schema: map<string, string>)
    ensures Unambiguous(lib, labels, schema) <==>
      forall f, g :: IsExtraction(lib, labels, schema, f) && IsExtraction(lib, labels, schema, g) ==> f == g
  {
    if Unambiguous(lib, labels, schema) {
      forall f, g | IsExtraction(lib, labels, schema, f) && IsExtraction(lib, labels, schema, g) ensures f == g {
        forall n | n in schema ensures f[n] == g[n] {
          assert Extracts(lib, labels, n, schema[n], f[n]) && Extracts(lib, labels, n, schema[n], g[n]);
        }
      }
    } else {
      var n, k, l :| n in schema && k in labels && l in labels && Matches(lib, k, n) && Matches(lib, l, n)
        && Converted(lib, labels[k], schema[n]) != Converted(lib, labels[l], schema[n]);
      PreferringIsExtraction(lib, labels, schema, k);
      PreferringIsExtraction(lib, labels, schema, l);
      assert Preferring(lib, labels, schema, k)[n] != Preferring(lib, labels, schema, l)[n];
    }
  }

  // ----- what duplicate detection may rely on -----

  predicate SingleLine(v: Value) {
    match v
    case Text(s) => '\n' !in s
    case Items(xs) => forall i | 0 <= i < |xs| :: xs[i].Text? && '\n' !in xs[i].s
    case _ => true
  }

  lemma {:induction false} PiecesAreSingleLine(parts: seq<string>)
    requires forall p :: p in parts ==> '\n' !in p
    ensures SingleLine(Items(Pieces(parts)))
  {
    if parts != [] {
      PiecesAreSingleLine(parts[..|parts| - 1]);
      TrimKeepsOut(parts[|parts| - 1], '\n');
    }
  }

  lemma {:induction false} PartsOfLine(parts: seq<string>, c: char, x: char)
    requires x !in Join(parts, c)
    ensures forall p :: p in parts ==> x !in p
  {
    if |parts| > 1 {
      assert forall i :: 0 <= i < |parts[0]| ==> Join(parts, c)[i] == parts[0][i];
      var tail := Join(parts[1..], c);
      assert forall i :: 0 <= i < |tail| ==> Join(parts, c)[|parts[0]| + 1 + i] == tail[i];
      PartsOfLine(parts[1..], c, x);
      assert forall p :: p in parts ==> p == parts[0] || p in parts[1..];
    }
  }

  lemma ConvertedIsSingleLine(lib: Library, raw: string, ty: string)
    requires '\n' !in raw
    ensures SingleLine(Converted(lib, raw, ty).value)
  {
    if ty == "array" {
      PartsOfLine(Split(raw, ','), ',', '\n');
      PiecesAreSingleLine(Split(raw, ','));
    }
  }

  /** How `%v` prints the values the stub produces; `number` prints a float. */
  function Printed(number: real -> string, v: Value): string {
    match v
    case Null => "<nil>"
    case Num(n) => number(n)
    case Text(s) => s
    case Flag(b) => if b then "true" else "false"
    case Items(xs) => "[" + PrintedItems(xs) + "]"
  }

  function PrintedItems(xs: seq<Value>): string {
    if xs == [] then ""
    else (if |xs| == 1 then "" else PrintedItems(xs[..|xs| - 1]) + " ") + (if xs[|xs| - 1].Text? then xs[|xs| - 1].s else "")
  }

  lemma {:induction false} PrintedItemsOnOneLine(xs: seq<Value>)
    requires SingleLine(Items(xs))
    ensures '\n' !in PrintedItems(xs)
  {
    if |xs| > 1 {
      PrintedItemsOnOneLine(xs[..|xs| - 1]);
    }
  }

  lemma PrintedOnOneLine(number: real -> string, v: Value)
    requires SingleLine(v) && forall n :: '\n' !in number(n)
    ensures '\n' !in Printed(number, v)
  {
    if v.Items? {
      PrintedItemsOnOneLine(v.xs);
    }
  }

  /** The field map of a stub extraction can be read back from the hashed text,
      and so is identified by it, exactly when no field name contains '='. */
  lemma {:induction false} StubFieldsRoundTrip(cfg: Config, number: real -> string, fields: map<string, Field>)
    requires forall n :: '\n' !in number(n)
    requires forall v :: cfg.render(v) == Printed(number, v)
    requires forall n :: n in fields ==> SingleLine(fields[n].value)
    ensures var text := KeyFields.Rendered(fields, cfg.render);
      KeyFields.Decode(KeyFields.Preimage(text)) == text <==> forall n :: n in fields ==> '=' !in n
  {
    var text := KeyFields.Rendered(fields, cfg.render);
    KeyFields.RoundTrip(text);
    forall n | n in fields ensures '\n' !in text[n] {
      PrintedOnOneLine(number, fields[n].value);
      assert text[n] == Printed(number, fields[n].value);
    }
  }
}
