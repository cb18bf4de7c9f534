/** The popup's host form: how its raw field values become a host record when
    the form is saved, and how an existing record fills the form for editing. */
module Forms {
  import opened Js
  import opened Hosts
  import opened Store

  /** The raw values of the host form's fields. */
  datatype HostForm = HostForm(
    name: string,
    ip: string,
    port: string,
    rdpUser: string,
    environment: string,
    tags: string,
    notes: string,
    pinned: bool)

  /** `map(t => t.trim())`: trims every piece. */
  function TrimAll(parts: seq<string>): (r: seq<string>)
    ensures |r| == |parts|
    ensures forall i :: 0 <= i < |parts| ==> r[i] == Trim(parts[i])
  {
    Map(Trim, parts)
  }

  /** Trimming a list is trimming its head and then its tail. */
  lemma TrimAllCons(p: string, tail: seq<string>)
    ensures TrimAll([p] + tail) == [Trim(p)] + TrimAll(tail)
  {
    MapCons(Trim, p, tail);
  }

  /** A string is truthy exactly when it is not empty. */
  predicate NonBlank(t: string) {
    t != []
  }

  /** `filter(t => t)`: drops the empty pieces, keeping order. */
  function NonEmpty(parts: seq<string>): (r: seq<string>)
    ensures forall i :: 0 <= i < |r| ==> r[i] != [] && r[i] in parts
    ensures forall x :: x in parts && x != [] ==> x in r
  {
    var r := Filter(parts, NonBlank);
    assert forall i :: 0 <= i < |r| ==> r[i] in multiset(r);
    assert forall x :: x in parts ==> x in multiset(parts);
    r
  }

  /** A list without empty pieces passes the filter unchanged. */
  lemma {:induction false} NonEmptyKeepsAll(parts: seq<string>)
    requires forall i :: 0 <= i < |parts| ==> parts[i] != []
    ensures NonEmpty(parts) == parts
  {
    if parts != [] {
      NonEmptyKeepsAll(parts[1..]);
      assert parts == [parts[0]] + parts[1..];
      FilterConcat([parts[0]], parts[1..], NonBlank);
    }
  }

  /** Trimming never introduces a character that was not there. */
  lemma TrimKeepsOut(c: char, s: string)
    requires c !in s
    ensures c !in Trim(s)
  {
    var t := TrimStart(s);
    var r := TrimEnd(t);
    forall i | 0 <= i < |r| ensures r[i] != c {
      assert r[i] == t[i] == s[|s| - |t| + i];
    }
  }

  /** The tag field: `value.split(',').map(t => t.trim()).filter(t => t)`.
      Every tag it yields is non-empty, trimmed and free of commas. */
  function ParseTags(raw: string): (r: seq<string>)
    ensures r == NonEmpty(TrimAll(Split(raw, ',')))
    ensures forall i :: 0 <= i < |r| ==> r[i] != [] && Trimmed(r[i]) && ',' !in r[i]
  {
    var pieces := Split(raw, ',');
    var trimmed := TrimAll(pieces);
    assert forall i :: 0 <= i < |trimmed| ==> Trimmed(trimmed[i]) && ',' !in trimmed[i] by {
      forall i | 0 <= i < |trimmed| ensures Trimmed(trimmed[i]) && ',' !in trimmed[i] {
        TrimKeepsOut(',', pieces[i]);
      }
    }
    NonEmpty(trimmed)
  }

  /** A tag without whitespace at its ends, without commas and not empty. */
  predicate CleanTag(t: string) {
    t != [] && Trimmed(t) && ',' !in t
  }

  /** A space after a comma is trimmed away with the piece it starts. */
  lemma SplitLeadingSpace(x: string)
    ensures TrimAll(Split([' '] + x, ',')) == TrimAll(Split(x, ','))
  {
    var s := [' '] + x;
    assert s[1..] == x;
    var rest := Split(x, ',');
    assert Split(s, ',') == [[' '] + rest[0]] + rest[1..];
    assert [rest[0]] + rest[1..] == rest;
    TrimAllCons([' '] + rest[0], rest[1..]);
    TrimAllCons(rest[0], rest[1..]);
    TrimSkipsLeadingSpace(' ', rest[0]);
  }

  /** Splitting and trimming undoes `tags.join(', ')` for a non-empty list. */
  lemma {:induction false} TrimSplitJoin(tags: seq<string>)
    requires |tags| >= 1
    requires forall i :: 0 <= i < |tags| ==> CleanTag(tags[i])
    ensures TrimAll(Split(Join(tags, ", "), ',')) == tags
  {
    if |tags| == 1 {
      SplitPlain(tags[0], ',');
      TrimFixed(tags[0]);
    } else {
      var rest := Join(tags[1..], ", ");
      var tail := Split([' '] + rest, ',');
      assert Join(tags, ", ") == tags[0] + [','] + ([' '] + rest);
      assert Split(Join(tags, ", "), ',') == [tags[0]] + tail by {
        SplitAtSeparator(tags[0], ',', [' '] + rest);
      }
      assert TrimAll(tail) == tags[1..] by {
        SplitLeadingSpace(rest);
        TrimSplitJoin(tags[1..]);
      }
      TrimFixed(tags[0]);
      TrimAllCons(tags[0], tail);
      assert [tags[0]] + tags[1..] == tags;
    }
  }

  /** The edit form shows tags as `tags.join(', ')`; saving reads back exactly
      the same tag list. */
  lemma TagsRoundTrip(tags: seq<string>)
    requires forall i :: 0 <= i < |tags| ==> CleanTag(tags[i])
    ensures ParseTags(Join(tags, ", ")) == tags
  {
    if tags == [] {
      assert Split([], ',') == [[]];
      assert TrimAll([[]]) == [[]];
    } else {
      TrimSplitJoin(tags);
      NonEmptyKeepsAll(tags);
    }
  }

  /** The record `saveHost` builds from the form (`hostData`), given its id:
      name, address, RDP user and notes trimmed; the port parsed when the field
      is not empty; tags split on commas; no health fields. */
  function FormHost(form: HostForm, id: string): (h: Host)
    ensures h.id == id && h.environment == form.environment && h.pinned == form.pinned
    ensures h.name == Trim(form.name) && h.ip == Trim(form.ip) && h.notes == Trim(form.notes)
    ensures h.tags == ParseTags(form.tags)
    ensures h.port == if form.port == [] then None else ParseInt(form.port)
    ensures h.rdpUser.None? <==> Trim(form.rdpUser) == []
    ensures h.rdpUser.Some? ==> h.rdpUser.value == Trim(form.rdpUser)
    ensures Trimmed(h.name) && Trimmed(h.ip) && Trimmed(h.notes)
    ensures h.rdpUser.Some? ==> h.rdpUser.value != [] && Trimmed(h.rdpUser.value)
    ensures forall i :: 0 <= i < |h.tags| ==> CleanTag(h.tags[i])
    ensures h.healthStatus.None? && h.lastHealthCheck.None? && h.responseTime.None? && h.healthMethod.None?
  {
    var rdpUser := Trim(form.rdpUser);
    Host(
      id,
      Trim(form.name),
      Trim(form.ip),
      if form.port != [] then ParseInt(form.port) else None,
      if rdpUser == [] then None else Some(rdpUser),
      form.environment,
      ParseTags(form.tags),
      Trim(form.notes),
      form.pinned,
      None, None, None, None)
  }

  /** The check in `saveHost`: the record from the form is refused exactly
      when the trimmed name or the trimmed address is empty. */
  lemma FormHostValid(form: HostForm, id: string)
    ensures !PassesValidation(FormHost(form, id)) <==> Trim(form.name) == [] || Trim(form.ip) == []
  {
  }

  /** A form with a blank name or address saves nothing, whatever the mode. */
  lemma SaveFormRejectsBlank(envs: seq<Env>, mode: FormMode, form: HostForm, editingId: string, freshId: string)
    requires Trim(form.name) == [] || Trim(form.ip) == []
    ensures SavedEnvs(envs, mode, FormHost(form, freshId), editingId, freshId) == envs
  {
    FormHostValid(form, freshId);
  }

  /** The form `editHost` fills from a record: a port only when it is truthy,
      the environment `'default'` when the record has none, tags joined with
      `', '`. */
  function EditForm(h: Host): (form: HostForm)
    ensures form.name == h.name && form.ip == h.ip && form.pinned == h.pinned
    ensures form.environment != []
  {
    HostForm(
      h.name,
      h.ip,
      if PortSet(h.port) then IntToString(h.port.value) else "",
      match h.rdpUser case Some(u) => u case None => "",
      if h.environment != [] then h.environment else "default",
      Join(h.tags, ", "),
      h.notes,
      h.pinned)
  }

  /** The text fields survive a second save: trimming twice is trimming once. */
  lemma EditFormKeepsText(form: HostForm, id: string)
    ensures var h := FormHost(form, id);
      var g := FormHost(EditForm(h), id);
      g.name == h.name && g.ip == h.ip && g.notes == h.notes && g.rdpUser == h.rdpUser
  {
    TrimIdempotent(form.name);
    TrimIdempotent(form.ip);
    TrimIdempotent(form.notes);
    TrimIdempotent(form.rdpUser);
  }

  /** The tag list survives a second save. */
  lemma EditFormKeepsTags(form: HostForm, id: string)
    ensures var h := FormHost(form, id);
      FormHost(EditForm(h), id).tags == h.tags
  {
    TagsRoundTrip(FormHost(form, id).tags);
  }

  /** A truthy port survives a second save; a port of 0 is lost. */
  lemma EditFormPort(form: HostForm, id: string)
    ensures var h := FormHost(form, id);
      FormHost(EditForm(h), id).port == if PortSet(h.port) then h.port else None
  {
    var h := FormHost(form, id);
    if PortSet(h.port) {
      ParseIntToString(h.port.value);
    }
  }

  /** Opening a record the form built in the edit form and saving it again
      rebuilds the same record, except that a port of 0 (falsy, so never
      shown) is dropped. */
  lemma EditFormRoundTrip(form: HostForm, id: string)
    requires form.environment != []
    ensures var h := FormHost(form, id);
      FormHost(EditForm(h), id) == h.(port := if PortSet(h.port) then h.port else None)
  {
    EditFormKeepsText(form, id);
    EditFormKeepsTags(form, id);
    EditFormPort(form, id);
  }

  /** A stored record whose fields look as the form leaves them: trimmed
      texts, a non-empty trimmed RDP user if any, clean tags and an
      environment. */
  predicate FormShaped(h: Host) {
    && Trimmed(h.name) && Trimmed(h.ip) && Trimmed(h.notes)
    && (h.rdpUser.Some? ==> h.rdpUser.value != [] && Trimmed(h.rdpUser.value))
    && (forall i :: 0 <= i < |h.tags| ==> CleanTag(h.tags[i]))
    && h.environment != []
  }

  /** Re-saving any such stored record unchanged through the edit form keeps
      every field it shows, drops a port of 0, and clears the four health
      fields, which the form does not carry: a record the sweep has probed
      loses its status, check time, response time and method. */
  lemma ResaveStored(h: Host)
    requires FormShaped(h)
    ensures FormHost(EditForm(h), h.id) == h.(port := if PortSet(h.port) then h.port else None,
      healthStatus := None, lastHealthCheck := None, responseTime := None, healthMethod := None)
  {
    TrimFixed(h.name);
    TrimFixed(h.ip);
    TrimFixed(h.notes);
    if h.rdpUser.Some? {
      TrimFixed(h.rdpUser.value);
    } else {
      assert Trim([]) == [];
    }
    TagsRoundTrip(h.tags);
    if PortSet(h.port) {
      ParseIntToString(h.port.value);
    }
  }
}
