/** Updating the clinic settings (PUT /api/settings, admins only): the multipart form is
    folded field by field into a name, a subtitle and a logo path, and then the one
    settings row is updated with whatever was supplied, or created with defaults when
    there is none. Writing the uploaded file is left out; the upload yields its path.
    `path.extname` is a parameter. */
module SettingsUpdate {
  import opened Wrappers
  import opened Text
  import opened Schema
  import opened Database
  import opened AuthUtils

  const NameField: string := "name"
  const SubtitleField: string := "subtitle"
  const LogoField: string := "logo"
  const DefaultClinicName: string := "ຄລີນິກ ສຸຂະພາບດີ"
  const DefaultSubtitle: string := "ຜູ້ບໍລິການ"
  const UploadPrefix: string := "/uploads/clinic-logo-"

  /** One part of the form: its name, its data decoded as UTF-8 (a part always carries
      a buffer, so an empty part reads as Some("")) and its file name. */
  datatype FormField = FormField(name: Option<string>, data: Option<string>, filename: Option<string>)

  /** What the loop collects; None is `undefined`. */
  datatype Collected = Collected(name: Option<string>, subtitle: Option<string>, logoPath: Option<string>)

  /** The path an uploaded logo is served from. */
  function LogoPath(filename: string, extname: string -> string, now: nat): (p: string)
    ensures StartsWith(p, UploadPrefix)
  {
    UploadPrefix + NatToString(now) + extname(filename)
  }

  predicate IsNameField(f: FormField) { f.name == Some(NameField) && f.data.Some? }
  predicate IsSubtitleField(f: FormField) { f.name == Some(SubtitleField) && f.data.Some? }
  predicate IsLogoField(f: FormField) { f.name == Some(LogoField) && f.data.Some? && PresentText(f.filename) }

  /** One turn of the loop. */
  function Step(c: Collected, f: FormField, extname: string -> string, now: nat): Collected {
    if IsNameField(f) then c.(name := f.data)
    else if IsSubtitleField(f) then c.(subtitle := f.data)
    else if IsLogoField(f) then c.(logoPath := Some(LogoPath(f.filename.value, extname, now)))
    else c
  }

  /** The locals after the loop has seen all fields. */
  function Collect(fields: seq<FormField>, extname: string -> string, now: nat): Collected {
    if fields == [] then Collected(None, None, None)
    else Step(Collect(fields[..|fields| - 1], extname, now), fields[|fields| - 1], extname, now)
  }

  /** The name collected is that of the last name field, and None only without one; the
      same holds for the subtitle. */
  lemma LastFieldWins(fields: seq<FormField>, extname: string -> string, now: nat)
    ensures var c := Collect(fields, extname, now);
      && (c.name.None? <==> forall i :: 0 <= i < |fields| ==> !IsNameField(fields[i]))
      && (c.name.Some? ==> exists i :: 0 <= i < |fields| && IsNameField(fields[i]) && fields[i].data == c.name
                                       && forall j :: i < j < |fields| ==> !IsNameField(fields[j]))
      && (c.subtitle.None? <==> forall i :: 0 <= i < |fields| ==> !IsSubtitleField(fields[i]))
      && (c.subtitle.Some? ==> exists i :: 0 <= i < |fields| && IsSubtitleField(fields[i]) && fields[i].data == c.subtitle
                                           && forall j :: i < j < |fields| ==> !IsSubtitleField(fields[j]))
  {
    LastNameFieldWins(fields, extname, now);
    LastSubtitleFieldWins(fields, extname, now);
  }

  lemma {:induction false} LastNameFieldWins(fields: seq<FormField>, extname: string -> string, now: nat)
    ensures var c := Collect(fields, extname, now);
      && (c.name.None? <==> forall i :: 0 <= i < |fields| ==> !IsNameField(fields[i]))
      && (c.name.Some? ==> exists i :: 0 <= i < |fields| && IsNameField(fields[i]) && fields[i].data == c.name
                                       && forall j :: i < j < |fields| ==> !IsNameField(fields[j]))
  {
    if fields != [] {
      var init := fields[..|fields| - 1];
      LastNameFieldWins(init, extname, now);
      var c0 := Collect(init, extname, now);
      if !IsNameField(fields[|fields| - 1]) && c0.name.Some? {
        var i :| 0 <= i < |init| && IsNameField(init[i]) && init[i].data == c0.name
                 && forall j :: i < j < |init| ==> !IsNameField(init[j]);
        assert fields[i] == init[i];
      }
      assert forall i :: 0 <= i < |init| ==> fields[i] == init[i];
    }
  }

  lemma {:induction false} LastSubtitleFieldWins(fields: seq<FormField>, extname: string -> string, now: nat)
    ensures var c := Collect(fields, extname, now);
      && (c.subtitle.None? <==> forall i :: 0 <= i < |fields| ==> !IsSubtitleField(fields[i]))
      && (c.subtitle.Some? ==> exists i :: 0 <= i < |fields| && IsSubtitleField(fields[i]) && fields[i].data == c.subtitle
                                           && forall j :: i < j < |fields| ==> !IsSubtitleField(fields[j]))
  {
    if fields != [] {
      var init := fields[..|fields| - 1];
      LastSubtitleFieldWins(init, extname, now);
      var c0 := Collect(init, extname, now);
      if !IsSubtitleField(fields[|fields| - 1]) && c0.subtitle.Some? {
        var i :| 0 <= i < |init| && IsSubtitleField(init[i]) && init[i].data == c0.subtitle
                 && forall j :: i < j < |init| ==> !IsSubtitleField(init[j]);
        assert fields[i] == init[i];
      }
      assert forall i :: 0 <= i < |init| ==> fields[i] == init[i];
    }
  }

  /** A logo path is collected exactly when some field is a logo with data and a file name,
      and it always lies under the upload prefix. */
  lemma {:induction false} LogoOnlyFromFiles(fields: seq<FormField>, extname: string -> string, now: nat)
    ensures var c := Collect(fields, extname, now);
      && (c.logoPath.Some? <==> exists i :: 0 <= i < |fields| && IsLogoField(fields[i]))
      && (c.logoPath.Some? ==> StartsWith(c.logoPath.value, UploadPrefix))
  {
    if fields != [] {
      var init := fields[..|fields| - 1];
      LogoOnlyFromFiles(init, extname, now);
      assert forall i :: 0 <= i < |init| ==> fields[i] == init[i];
    }
  }

  /** The `for (const field of formData)` loop. */
  method CollectFields(fields: seq<FormField>, extname: string -> string, now: nat) returns (c: Collected)
    ensures c == Collect(fields, extname, now)
  {
    var name: Option<string> := None;
    var subtitle: Option<string> := None;
    var logoPath: Option<string> := None;
    for i := 0 to |fields|
      invariant Collected(name, subtitle, logoPath) == Collect(fields[..i], extname, now)
    {
      var field := fields[i];
      if field.name == Some(NameField) && field.data.Some? {
        name := field.data;
      } else if field.name == Some(SubtitleField) && field.data.Some? {
        subtitle := field.data;
      } else if field.name == Some(LogoField) && field.data.Some? && PresentText(field.filename) {
        logoPath := Some(LogoPath(field.filename.value, extname, now));
      }
      assert fields[..i + 1][..i] == fields[..i];
    }
    assert fields[..|fields|] == fields;
    c := Collected(name, subtitle, logoPath);
  }

  /** The update: each supplied field replaces the stored one, the rest stay as they were. */
  function Merge(s: ClinicSettings, c: Collected): (r: ClinicSettings)
    ensures r.id == s.id
    ensures c.name.Some? ==> r.name == c.name.value
    ensures c.name.None? ==> r.name == s.name
    ensures c.subtitle.Some? ==> r.subtitle == c.subtitle.value
    ensures c.subtitle.None? ==> r.subtitle == s.subtitle
    ensures c.logoPath.Some? ==> r.logo == c.logoPath
    ensures c.logoPath.None? ==> r.logo == s.logo
  {
    var s1 := if c.name.Some? then s.(name := c.name.value) else s;
    var s2 := if c.subtitle.Some? then s1.(subtitle := c.subtitle.value) else s1;
    if c.logoPath.Some? then s2.(logo := c.logoPath) else s2
  }

  /** The first row, with `name || default` and `subtitle || default` (so an empty name
      falls back too) and the logo or null. */
  function Created(c: Collected): (r: ClinicSettings)
    ensures r.id == 1 && r.logo == c.logoPath
    ensures r.name == TextOr(c.name, DefaultClinicName) && r.name != ""
    ensures r.subtitle == TextOr(c.subtitle, DefaultSubtitle) && r.subtitle != ""
  {
    ClinicSettings(1, TextOr(c.name, DefaultClinicName), TextOr(c.subtitle, DefaultSubtitle), c.logoPath)
  }

  /** PUT /api/settings. */
  method UpdateSettings(db: Database, caller: Option<JwtPayload>, form: Option<seq<FormField>>,
                        extname: string -> string, now: nat)
    returns (r: Result<ClinicSettings>)
    requires db.Valid()
    modifies db`settings
    ensures db.Valid()
    ensures RequireAdmin(caller).Err? ==> r == Err(RequireAdmin(caller).error) && db.settings == old(db.settings)
    ensures RequireAdmin(caller).Ok? && form.None? ==>
      r == Err(HttpError(400, FormDataRequired)) && db.settings == old(db.settings)
    ensures RequireAdmin(caller).Ok? && form.Some? ==>
      var c := Collect(form.value, extname, now);
      && (old(db.settings) != [] ==> r == Ok(Merge(old(db.settings)[0], c)) && db.settings == old(db.settings)[0 := r.value])
      && (old(db.settings) == [] ==> r == Ok(Created(c)) && db.settings == [r.value])
    ensures |db.settings| == if r.Ok? && old(db.settings) == [] then 1 else |old(db.settings)|
  {
    var auth := RequireAdmin(caller);
    if auth.Err? {
      return Err(auth.error);
    }
    if form.None? {
      return Err(HttpError(400, FormDataRequired));
    }
    var c := CollectFields(form.value, extname, now);
    if |db.settings| > 0 {
      var updated := Merge(db.settings[0], c);
      db.settings := db.settings[0 := updated];
      r := Ok(updated);
    } else {
      var created := Created(c);
      db.settings := [created];
      r := Ok(created);
    }
  }
}
