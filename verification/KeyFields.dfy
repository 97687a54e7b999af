/** keyFieldsHash: the text whose digest identifies a document's key fields. */
module KeyFields {
  import opened Prelude
  import opened Domain
  import opened Sorting
  import opened Strings

  /** Some enumeration of a set of names. */
  ghost function Listing(names: set<string>): (s: seq<string>)
    ensures Enumerates(s, names)
  {
    if names == {} then []
    else
      var n :| n in names;
      var tail := Listing(names - {n});
      assert n !in Names(tail) && Names([n] + tail) == {n} + Names(tail);
      assert forall i :: 0 <= i < |tail| ==> tail[i] in Names(tail);
      [n] + tail
  }

  function Line(name: string, text: string): string {
    name + "=" + text + "\n"
  }

  /** The lines for the given names, in the given order. */
  function Lines(names: seq<string>, text: map<string, string>): string
    requires forall n :: n in names ==> n in text
  {
    if names == [] then "" else Line(names[0], text[names[0]]) + Lines(names[1..], text)
  }

  /** What is hashed: one line per field, sorted by name. */
  ghost function Preimage(text: map<string, string>): string {
    SortIgnoresOrder(Listing(text.Keys), Listing(text.Keys));
    NamesIn(Sort(Listing(text.Keys)));
    Lines(Sort(Listing(text.Keys)), text)
  }

  lemma NamesIn(s: seq<string>)
    ensures forall n :: n in s ==> n in Names(s)
  {
  }

  ghost function Rendered(fields: map<string, Field>, render: Value -> string): map<string, string> {
    map n | n in fields :: render(fields[n].value)
  }

  predicate Complete(fields: map<string, Field>) {
    forall n | n in fields :: fields[n].value != Null
  }

  /** The stored key-fields hash; none when any field is missing. */
  ghost function KeyHash(cfg: Config, fields: map<string, Field>): Option<string> {
    if Complete(fields) then Some(cfg.digest(Preimage(Rendered(fields, cfg.render)))) else None
  }

  /** The pre-image is the same for every order in which the fields are met. */
  lemma {:induction false} PreimageIgnoresOrder(text: map<string, string>, met: seq<string>)
    requires Enumerates(met, text.Keys)
    ensures forall n :: n in Sort(met) ==> n in text
    ensures Preimage(text) == Lines(Sort(met), text)
  {
    SortIgnoresOrder(met, Listing(text.Keys));
    NamesIn(Sort(met));
  }

  /** The first line of a pre-image, and what follows it. */
  datatype Head = Head(name: string, text: string, rest: string)

  function FirstLine(s: string): (h: Option<Head>)
    ensures h.Some? ==> |h.value.rest| < |s|
  {
    var e := IndexOf(s, '=');
    if e == |s| then None
    else
      var l := IndexOf(s[e + 1..], '\n');
      if l == |s| - e - 1 then None else Some(Head(s[..e], s[e + 1..][..l], s[e + 1..][l + 1..]))
  }

  /** Reads the fields back from the pre-image. */
  function Decode(s: string): map<string, string>
    decreases |s|
  {
    var h := FirstLine(s);
    if h.None? then map[] else Decode(h.value.rest)[h.value.name := h.value.text]
  }

  /** Names without '=' and values without a newline. */
  predicate Clean(text: map<string, string>) {
    forall n | n in text :: '=' !in n && '\n' !in text[n]
  }

  lemma DecodeLine(name: string, text: string, rest: string)
    requires '=' !in name && '\n' !in text
    ensures FirstLine(Line(name, text) + rest) == Some(Head(name, text, rest))
  {
    var s, tail := Line(name, text) + rest, text + ['\n'] + rest;
    assert s == name + ['='] + tail;
    IndexOfFirst(name, '=', tail);
    IndexOfFirst(text, '\n', rest);
    assert s[..|name|] == name && s[|name| + 1..] == tail;
    assert tail[..|text|] == text && tail[|text| + 1..] == rest;
  }

  lemma {:induction false} DecodeLines(names: seq<string>, text: map<string, string>)
    requires Clean(text) && forall n :: n in names ==> n in text
    ensures Decode(Lines(names, text)) == map n | n in names :: text[n]
  {
    if names != [] {
      DecodeLine(names[0], text[names[0]], Lines(names[1..], text));
      DecodeLines(names[1..], text);
    }
  }

  lemma FirstLineIsClean(s: string)
    ensures FirstLine(s).Some? ==> '=' !in FirstLine(s).value.name && '\n' !in FirstLine(s).value.text
  {
  }

  lemma {:induction false} DecodedIsClean(s: string)
    ensures Clean(Decode(s))
    decreases |s|
  {
    FirstLineIsClean(s);
    if FirstLine(s).Some? {
      DecodedIsClean(FirstLine(s).value.rest);
    }
  }

  /** Decoding undoes the serialisation on exactly the clean field maps. */
  lemma {:induction false} RoundTrip(text: map<string, string>)
    ensures Decode(Preimage(text)) == text <==> Clean(text)
  {
    DecodedIsClean(Preimage(text));
    if Clean(text) {
      var met := Listing(text.Keys);
      PreimageIgnoresOrder(text, met);
      SortIgnoresOrder(met, met);
      var names := Sort(met);
      DecodeLines(names, text);
      forall n ensures n in names <==> n in text {
        assert n in names <==> n in Names(names);
      }
      assert (map n | n in names :: text[n]) == text;
    }
  }

  /** Clean documents with the same pre-image have the same rendered fields. */
  lemma {:induction false} PreimageIsInjective(a: map<string, string>, b: map<string, string>)
    requires Clean(a) && Clean(b)
    ensures Preimage(a) == Preimage(b) <==> a == b
  {
    RoundTrip(a);
    RoundTrip(b);
  }

  /** Off the clean maps it is not injective: a newline in a value, or an '=' in
      a name, makes two different sets of fields look alike. */
  lemma {:induction false} UncleanFieldsCollide(a: string, b: string, x: string, y: string)
    requires a != b && Leq(a, b)
    ensures Preimage(map[a := x + "\n" + b + "=" + y]) == Preimage(map[a := x, b := y])
    ensures Preimage(map[a + "=" + b := x]) == Preimage(map[a := b + "=" + x])
  {
    var v := x + "\n" + b + "=" + y;
    PreimageOfOne(map[a := v], a);
    PreimageOfTwo(map[a := x, b := y], a, b);
    LinesRunTogether(a, b, x, y);
    var ab, bx := a + "=" + b, b + "=" + x;
    PreimageOfOne(map[ab := x], ab);
    PreimageOfOne(map[a := bx], a);
  }

  lemma LinesRunTogether(a: string, b: string, x: string, y: string)
    ensures Line(a, x + "\n" + b + "=" + y) == Line(a, x) + Line(b, y)
    ensures Line(a + "=" + b, x) == Line(a, b + "=" + x)
  {
    var s, t := Line(a, x + "\n" + b + "=" + y), Line(a, x) + Line(b, y);
    assert |s| == |t|;
    assert forall i :: 0 <= i < |s| ==> s[i] == t[i];
    var u, v := Line(a + "=" + b, x), Line(a, b + "=" + x);
    assert |u| == |v|;
    assert forall i :: 0 <= i < |u| ==> u[i] == v[i];
  }

  lemma PreimageOfOne(text: map<string, string>, n: string)
    requires text.Keys == {n}
    ensures Preimage(text) == Line(n, text[n])
  {
    assert Names([n]) == {n};
    PreimageIgnoresOrder(text, [n]);
    assert [n][1..] == [];
    assert Sort([n]) == [n];
    assert Lines([n][1..], text) == "";
  }

  lemma PreimageOfTwo(text: map<string, string>, m: string, n: string)
    requires text.Keys == {m, n} && m != n && Leq(m, n)
    ensures Preimage(text) == Line(m, text[m]) + Line(n, text[n])
  {
    assert Names([m, n]) == {m, n};
    PreimageIgnoresOrder(text, [m, n]);
    assert [m, n][1..] == [n] && [n][1..] == [];
    assert Sort([n]) == [n];
    assert Sort([m, n]) == [m, n];
    assert Lines([n][1..], text) == "";
    assert Lines([n], text) == Line(n, text[n]);
  }

  // ----- the hash, said of the fields alone -----

  /** A hash is stored exactly when every field has a value. */
  lemma {:induction false} HashNeedsEveryValue(cfg: Config, fields: map<string, Field>)
    ensures KeyHash(cfg, fields).None? <==> exists n :: n in fields && fields[n].value == Null
  {
    if KeyHash(cfg, fields).None? {
      var n :| n in fields && !(fields[n].value != Null);
    }
  }

  /** Confidences do not enter it. */
  lemma {:induction false} HashIgnoresConfidences(cfg: Config, a: map<string, Field>, b: map<string, Field>)
    requires a.Keys == b.Keys && forall n :: n in a ==> a[n].value == b[n].value
    ensures KeyHash(cfg, a) == KeyHash(cfg, b)
  {
    assert Rendered(a, cfg.render) == Rendered(b, cfg.render);
  }

  /** No two texts have the same digest. */
  ghost predicate Injective(digest: string -> string) {
    forall x, y :: digest(x) == digest(y) ==> x == y
  }

  lemma RenderedAlike(a: map<string, Field>, b: map<string, Field>, render: Value -> string)
    ensures Rendered(a, render) == Rendered(b, render) <==>
      a.Keys == b.Keys && forall n :: n in a ==> render(a[n].value) == render(b[n].value)
  {
    var ta, tb := Rendered(a, render), Rendered(b, render);
    assert ta.Keys == a.Keys && tb.Keys == b.Keys;
    if ta == tb {
      forall n | n in a ensures render(a[n].value) == render(b[n].value) {
        assert ta[n] == tb[n];
      }
    }
  }

  /** Every field has a value, no name holds '=' and no printed value a newline. */
  ghost predicate PrintsCleanly(fields: map<string, Field>, render: Value -> string) {
    forall n :: n in fields ==> '=' !in n && fields[n].value != Null && '\n' !in render(fields[n].value)
  }

  lemma PrintsClean(fields: map<string, Field>, render: Value -> string)
    requires PrintsCleanly(fields, render)
    ensures Complete(fields) && Clean(Rendered(fields, render))
  {
  }

  lemma HashedAlike(cfg: Config, a: map<string, Field>, b: map<string, Field>)
    requires Injective(cfg.digest) && Complete(a) && Complete(b)
    ensures KeyHash(cfg, a) == KeyHash(cfg, b) <==> Preimage(Rendered(a, cfg.render)) == Preimage(Rendered(b, cfg.render))
  {
  }

  /** With a digest that never collides, two extractions have the same hash exactly
      when they have the same names and their values print alike. */
  lemma {:induction false} HashTellsValuesApart(cfg: Config, a: map<string, Field>, b: map<string, Field>)
    requires Injective(cfg.digest) && PrintsCleanly(a, cfg.render) && PrintsCleanly(b, cfg.render)
    ensures KeyHash(cfg, a).Some?
    ensures KeyHash(cfg, a) == KeyHash(cfg, b) <==>
      a.Keys == b.Keys && forall n :: n in a ==> cfg.render(a[n].value) == cfg.render(b[n].value)
  {
    PrintsClean(a, cfg.render);
    PrintsClean(b, cfg.render);
    HashedAlike(cfg, a, b);
    RenderedAlike(a, b, cfg.render);
    PreimageIsInjective(Rendered(a, cfg.render), Rendered(b, cfg.render));
  }

  /** What is hashed, field by field: nothing for no fields; otherwise the text for
      the others, and then the last name in order, '=', its value and a newline. */
  lemma {:induction false} LastLine(text: map<string, string>, last: string)
    requires last in text && forall n :: n in text ==> Precedes(n, last)
    ensures Preimage(text) == Preimage(text - {last}) + last + "=" + text[last] + "\n"
    ensures Preimage(map[]) == ""
  {
    var rest := text - {last};
    var met := Listing(rest.Keys);
    assert rest.Keys + {last} == text.Keys;
    MeetOne(met, rest.Keys, last);
    PreimageIgnoresOrder(text, met + [last]);
    PreimageIgnoresOrder(rest, met);
    LastSortsLast(met, last);
    LinesAppend(Sort(met), last, text);
    SameLines(Sort(met), rest, text);
    NothingHashed();
  }

  lemma NothingHashed()
    ensures Preimage(map[]) == ""
  {
    var none: map<string, string> := map[];
    assert none.Keys == {} && Names([]) == {};
    PreimageIgnoresOrder(none, []);
  }

  lemma LastSortsLast(met: seq<string>, last: string)
    requires Distinct(met) && last !in met && forall n :: n in met ==> Precedes(n, last)
    ensures Sort(met + [last]) == Sort(met) + [last]
  {
    SortSorts(met);
    SortSorts(met + [last]);
    var sorted := Sort(met) + [last];
    forall i | 0 <= i < |Sort(met)| ensures Leq(Sort(met)[i], last) {
      assert Sort(met)[i] in multiset(Sort(met));
      assert Sort(met)[i] in met;
      LeqIsLexicographic(Sort(met)[i], last);
    }
    SortedFormIsUnique(Sort(met + [last]), sorted);
  }

  lemma {:induction false} LinesAppend(names: seq<string>, last: string, text: map<string, string>)
    requires last in text && forall n :: n in names ==> n in text
    ensures Lines(names + [last], text) == Lines(names, text) + last + "=" + text[last] + "\n"
  {
    if names == [] {
      assert [last][1..] == [];
      assert Lines([last][1..], text) == "";
    } else {
      assert (names + [last])[1..] == names[1..] + [last];
      LinesAppend(names[1..], last, text);
    }
  }

  lemma {:induction false} SameLines(names: seq<string>, a: map<string, string>, b: map<string, string>)
    requires forall n :: n in names ==> n in a && n in b && a[n] == b[n]
    ensures Lines(names, a) == Lines(names, b)
  {
    if names != [] {
      SameLines(names[1..], a, b);
    }
  }

  lemma MeetOne(met: seq<string>, names: set<string>, name: string)
    requires Enumerates(met, names) && name !in names
    ensures Enumerates(met + [name], names + {name})
  {
    assert Names(met + [name]) == Names(met) + {name};
    assert forall i :: 0 <= i < |met| ==> met[i] in Names(met);
  }

  /** `h` followed by the lines still to be written for `names[i..]` is `total`. */
  ghost predicate Remaining(h: string, names: seq<string>, i: nat, text: map<string, string>, total: string) {
    && i <= |names|
    && (forall n :: n in names ==> n in text)
    && h + Lines(names[i..], text) == total
  }

  lemma WriteLine(h: string, names: seq<string>, i: nat, text: map<string, string>, total: string)
    requires i < |names| && Remaining(h, names, i, text, total)
    ensures names[i] in text
    ensures Remaining(h + Line(names[i], text[names[i]]), names, i + 1, text, total)
  {
    assert names[i] in names;
    var line, tail := Line(names[i], text[names[i]]), Lines(names[i + 1..], text);
    assert names[i..][1..] == names[i + 1..];
    assert Lines(names[i..], text) == line + tail;
    assert (h + line) + tail == h + (line + tail);
  }

  /** The hashing loop. The first loop meets the fields in map order. */
  method KeyFieldsHash(cfg: Config, fields: map<string, Field>) returns (hash: string, ok: bool)
    ensures ok <==> KeyHash(cfg, fields).Some?
    ensures ok ==> KeyHash(cfg, fields) == Some(hash)
    ensures ok <==> forall n :: n in fields ==> fields[n].value != Null
    ensures ok ==> hash == cfg.digest(Preimage(map n | n in fields :: cfg.render(fields[n].value)))
  {
    var names: seq<string> := [];
    var rest := fields.Keys;
    while rest != {}
      invariant rest <= fields.Keys
      invariant Enumerates(names, fields.Keys - rest)
      invariant forall n :: n in fields.Keys - rest ==> fields[n].value != Null
      decreases |rest|
    {
      var name :| name in rest;
      if fields[name].value == Null {
        return "", false;
      }
      MeetOne(names, fields.Keys - rest, name);
      assert fields.Keys - (rest - {name}) == fields.Keys - rest + {name};
      names := names + [name];
      rest := rest - {name};
    }
    hash := HashNames(cfg, fields, names);
    return hash, true;
  }

  /** The second half: sort the names and feed one line per name to the hash. */
  method HashNames(cfg: Config, fields: map<string, Field>, met: seq<string>) returns (hash: string)
    requires Enumerates(met, fields.Keys)
    ensures hash == cfg.digest(Preimage(Rendered(fields, cfg.render)))
    ensures hash == cfg.digest(Preimage(map n | n in fields :: cfg.render(fields[n].value)))
  {
    ghost var text := Rendered(fields, cfg.render);
    PreimageIgnoresOrder(text, met);
    var names := Sort(met);
    ghost var total := Lines(names, text);
    var h := "";
    var i := 0;
    assert names[0..] == names;
    while i < |names|
      invariant Remaining(h, names, i, text, total)
    {
      WriteLine(h, names, i, text, total);
      h := h + Line(names[i], cfg.render(fields[names[i]].value));
      i := i + 1;
    }
    assert names[i..] == [];
    assert h + "" == h;
    assert h == Preimage(text);
    assert text == map n | n in fields :: cfg.render(fields[n].value);
    hash := cfg.digest(h);
  }
}
