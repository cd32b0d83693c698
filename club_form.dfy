/** What the create-club and edit-club pages share beyond their validator: the multipart
    payload they submit and the reading of a fetched club into the form. */
module ClubForm {
  import opened JsValue

  /** The `FormData` the club pages submit, built by successive appends: the trimmed name and
      description, the category as typed, and the chosen image only when there is one. */
  method BuildPayload(name: string, description: string, category: string, imageFile: Value)
    returns (payload: Value)
    ensures payload == ClubPayload(name, description, category, imageFile)
  {
    var entries: seq<Entry> := [];
    entries := entries + [Entry("name", Str(Trim(name)))];
    entries := entries + [Entry("description", Str(Trim(description)))];
    entries := entries + [Entry("category", Str(category))];
    if Truthy(imageFile) {
      entries := entries + [Entry("image", imageFile)];
    }
    payload := Form(entries);
  }

  /** The payload as a value. */
  function ClubPayload(name: string, description: string, category: string, imageFile: Value): Value {
    Form([Entry("name", Str(Trim(name))), Entry("description", Str(Trim(description))), Entry("category", Str(category))]
         + if Truthy(imageFile) then [Entry("image", imageFile)] else [])
  }

  /** The names the payload carries, in order. */
  function EntryNames(entries: seq<Entry>): (names: seq<string>)
    ensures |names| == |entries|
    ensures forall i :: 0 <= i < |entries| ==> names[i] == entries[i].name
  {
    if entries == [] then [] else [entries[0].name] + EntryNames(entries[1..])
  }

  /** The payload carries the name, description and category and, exactly when a file was
      chosen, the image; the name and description carry no surrounding white space and the
      category is passed through as typed. */
  lemma PayloadFields(name: string, description: string, category: string, imageFile: Value)
    ensures var p := ClubPayload(name, description, category, imageFile);
      && EntryNames(p.entries) == ["name", "description", "category"] + (if Truthy(imageFile) then ["image"] else [])
      && ("image" in EntryNames(p.entries) <==> Truthy(imageFile))
      && p.entries[0].value.Str? && p.entries[1].value.Str?
      && (var n := p.entries[0].value.s; n != [] ==> !IsWhiteSpace(n[0]) && !IsWhiteSpace(n[|n| - 1]))
      && (var d := p.entries[1].value.s; d != [] ==> !IsWhiteSpace(d[0]) && !IsWhiteSpace(d[|d| - 1]))
      && p.entries[2].value == Str(category)
  {
  }

  /** `field || ""` for a text field of a fetched club: the text itself, or empty when it is
      missing or falsy. */
  function FieldText(v: Value): (t: string)
    ensures Truthy(v) && v.Str? ==> t == v.s
    ensures !Truthy(v) ==> t == ""
  {
    if Truthy(v) && v.Str? then v.s else ""
  }
}
