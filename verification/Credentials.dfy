/** Field-preserving edits of a credential document, and the content hash that ownership
    rests on: it does not notice the one field the plugin toggles. */
module Credentials {
  import opened Basics
  import opened JsonTree

  /** The top-level members of a credential file, each as its JSON text. */
  type Document = map<string, string>

  /** What the JSON library does to the text of a member: normalising it on output, and
      reading it. */
  datatype Codec = Codec(compact: string -> string, decode: string -> Json)

  ghost predicate Lawful(codec: Codec) {
    && (forall text :: codec.compact(codec.compact(text)) == codec.compact(text))
    && (forall text :: codec.decode(codec.compact(text)) == codec.decode(text))
    && codec.decode("true") == Bool(true) && codec.decode("false") == Bool(false)
  }

  function Encoded(codec: Codec, doc: Document): Document {
    map key | key in doc :: codec.compact(doc[key])
  }

  /** What HashWithoutField hashes. */
  function ContentWithout(codec: Codec, doc: Document, field: string): Document {
    Encoded(codec, doc - {field})
  }

  predicate Disabled(codec: Codec, doc: Document) {
    "disabled" in doc && codec.decode(doc["disabled"]) == Bool(true)
  }

  predicate SameMeaning(codec: Codec, a: Document, b: Document) {
    a.Keys == b.Keys && forall key :: key in a && key in b ==> codec.decode(a[key]) == codec.decode(b[key])
  }

  /** `value` is what the field is set to; None clears it. */
  function Edited(doc: Document, field: string, value: Option<string>): Document {
    if value.None? then doc - {field} else doc[field := value.value]
  }

  function Meaning(codec: Codec, doc: Document, field: string): Option<Json> {
    if field in doc then Some(codec.decode(doc[field])) else None
  }

  /** semanticRawMapEqual; members are visited in any order. */
  method SemanticEqual(codec: Codec, a: Document, b: Document) returns (equal: bool)
    ensures equal <==> SameMeaning(codec, a, b)
  {
    assert |a.Keys| == |a| && |b.Keys| == |b|;
    if |a| != |b| {
      return false;
    }
    var todo := a.Keys;
    while todo != {}
      invariant todo <= a.Keys
      invariant forall key :: key in a.Keys - todo ==> key in b && codec.decode(a[key]) == codec.decode(b[key])
    {
      var key :| key in todo;
      todo := todo - {key};
      if key !in b || codec.decode(a[key]) != codec.decode(b[key]) {
        return false;
      }
    }
    SameSize(a.Keys, b.Keys);
    return true;
  }

  /** The final check that nothing else changed. */
  method OnlyFieldDiffers(codec: Codec, before: Document, after: Document, field: string) returns (ok: bool)
    ensures ok <==> SameMeaning(codec, before - {field}, after - {field})
  {
    ok := SemanticEqual(codec, before - {field}, after - {field});
  }

  /** MutateTopLevel: None when nothing would change, an error never. */
  method MutateTopLevel(codec: Codec, doc: Document, field: string, value: Option<string>) returns (r: Result<Option<Document>>)
    ensures r.Ok?
    ensures r.value.None? <==> Meaning(codec, doc, field) == (if value.None? then None else Some(codec.decode(value.value)))
    ensures (if r.value.Some? then r.value.value else doc) == Mutated(codec, doc, field, value)
  {
    var edited := doc;
    if value.None? {
      edited := edited - {field};
    } else {
      edited := edited[field := value.value];
    }
    OneFieldDecides(codec, doc, field, value);
    var equal := SemanticEqual(codec, doc, edited);
    if equal {
      return Ok(None);
    }
    var ok := OnlyFieldDiffers(codec, doc, edited, field);
    assert doc - {field} == edited - {field};
    if !ok {
      return Err("mutation changed an unrelated credential field");
    }
    return Ok(Some(Encoded(codec, edited)));
  }

  lemma OneFieldDecides(codec: Codec, doc: Document, field: string, value: Option<string>)
    ensures SameMeaning(codec, doc, Edited(doc, field, value))
            <==> Meaning(codec, doc, field) == (if value.None? then None else Some(codec.decode(value.value)))
  {
    var after := Edited(doc, field, value);
    if value.None? {
      assert field !in after;
    } else {
      assert field in after;
    }
  }

  /** The document on the Host after a mutation. */
  function Mutated(codec: Codec, doc: Document, field: string, value: Option<string>): Document {
    if Meaning(codec, doc, field) == (if value.None? then None else Some(codec.decode(value.value)))
    then doc else Encoded(codec, Edited(doc, field, value))
  }

  /** The field means what was asked for, every other member what it meant before, and the
      content hash without the field is the same. */
  lemma MutationIsLocal(codec: Codec, doc: Document, field: string, value: Option<string>)
    requires Lawful(codec)
    ensures var after := Mutated(codec, doc, field, value);
            && Meaning(codec, after, field) == (if value.None? then None else Some(codec.decode(value.value)))
            && (forall other :: other != field ==> Meaning(codec, after, other) == Meaning(codec, doc, other))
            && ContentWithout(codec, after, field) == ContentWithout(codec, doc, field)
  {
    var after := Mutated(codec, doc, field, value);
    assert ContentWithout(codec, after, field).Keys == ContentWithout(codec, doc, field).Keys;
  }

  function Toggled(codec: Codec, doc: Document, disabled: bool): Document {
    Mutated(codec, doc, "disabled", Some(if disabled then "true" else "false"))
  }

  function AllToggled(codec: Codec, doc: Document, flags: seq<bool>): Document
    decreases flags
  {
    if flags == [] then doc else AllToggled(codec, Toggled(codec, doc, flags[0]), flags[1..])
  }

  /** Any sequence of disabling and enabling leaves the ownership hash alone, so the hash taken
      at the disable is the hash found after the enable; the flag is the last one set. */
  lemma {:induction false} TogglesKeepHash(codec: Codec, doc: Document, flags: seq<bool>)
    requires Lawful(codec)
    ensures ContentWithout(codec, AllToggled(codec, doc, flags), "disabled") == ContentWithout(codec, doc, "disabled")
    ensures Disabled(codec, AllToggled(codec, doc, flags)) <==>
            if flags == [] then Disabled(codec, doc) else flags[|flags| - 1]
    decreases flags
  {
    if flags != [] {
      var next := Toggled(codec, doc, flags[0]);
      MutationIsLocal(codec, doc, "disabled", Some(if flags[0] then "true" else "false"));
      TogglesKeepHash(codec, next, flags[1..]);
    }
  }

  /** A change to any other member shows in the hash as soon as its normal text differs. */
  lemma HashSeesOtherChanges(codec: Codec, a: Document, b: Document, field: string, other: string)
    requires other != field && other in a && (other !in b || codec.compact(a[other]) != codec.compact(b[other]))
    ensures ContentWithout(codec, a, field) != ContentWithout(codec, b, field)
  {
    assert other in ContentWithout(codec, a, field);
    if other in ContentWithout(codec, b, field) {
      assert ContentWithout(codec, a, field)[other] != ContentWithout(codec, b, field)[other];
    }
  }
}
