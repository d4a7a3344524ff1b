/** The hostel-creation wizard (app/owner/hostels/create/page.tsx): a two-tab
    form whose "Next" button validates the six text fields, a photo list kept
    beside a list of preview object URLs, and a submit that brackets the upload
    and the create request with `isSubmitting`. */
module CreateHostel {
  import opened Wrappers
  import opened Text
  import opened Zod

  datatype Tab = Basic | Photos

  datatype Field = HostelName | Location | Amenities | Price | Rules | Description | PhotoList

  /** A file picked in the browser, as `File` describes it. */
  datatype File = File(name: string, mimeType: string, size: nat)

  /** The react-hook-form values of the wizard. */
  datatype Values = Values(
    hostelName: string,
    location: string,
    amenities: string,
    price: string,
    rules: string,
    description: string,
    photos: seq<File>)

  const DefaultValues := Values("", "", "", "", "", "", [])

  /** 10 * 1024 * 1024 bytes: the largest photo accepted. */
  const MaxPhotoBytes := 10 * 1024 * 1024
  const MinPhotos := 5

  // ---------------------------------------------------------------------------
  // The zod schema

  /** The message react-hook-form shows for one field: that of the first failing rule. */
  function FieldError(v: Values, f: Field): (e: Option<string>)
    ensures f == HostelName ==> (e.None? <==> CodeUnits(v.hostelName) >= 2)
    ensures f == Location ==> (e.None? <==> CodeUnits(v.location) >= 2)
    ensures f == Amenities ==> (e.None? <==> CodeUnits(v.amenities) >= 2)
    ensures f == Price ==> (e.None? <==> IsDigitString(v.price))
    ensures f == Rules ==> (e.None? <==> CodeUnits(v.rules) >= 10)
    ensures f == Description ==> (e.None? <==> CodeUnits(v.description) >= 20)
    ensures f == PhotoList ==> (e.None? <==> |v.photos| >= MinPhotos)
  {
    match f
    case HostelName => MinLength(v.hostelName, 2, "Hostel name is required")
    case Location => MinLength(v.location, 2, "Location is required")
    case Amenities => MinLength(v.amenities, 2, "Please enter at least some amenities.")
    case Price =>
      if CodeUnits(v.price) < 1 then Some("Price is required.")
      else if !IsDigitString(v.price) then Some("Price must be a number.")
      else None
    case Rules => MinLength(v.rules, 10, "Rules must be at least 10 characters.")
    case Description => MinLength(v.description, 20, "Description must be at least 20 characters.")
    case PhotoList =>
      if |v.photos| < MinPhotos then Some("You must upload at least 5 photos.") else None
  }

  /** The text of one of the six text fields. */
  function TextOf(v: Values, f: Field): string
    requires f != PhotoList
  {
    match f
    case HostelName => v.hostelName
    case Location => v.location
    case Amenities => v.amenities
    case Price => v.price
    case Rules => v.rules
    case Description => v.description
  }

  /** `field.onChange` of a text input: that field's text replaced, every other
      value kept. */
  function WithText(v: Values, f: Field, text: string): (w: Values)
    requires f != PhotoList
    ensures TextOf(w, f) == text && w.photos == v.photos
    ensures forall g :: g != f && g != PhotoList ==> TextOf(w, g) == TextOf(v, g)
  {
    match f
    case HostelName => v.(hostelName := text)
    case Location => v.(location := text)
    case Amenities => v.(amenities := text)
    case Price => v.(price := text)
    case Rules => v.(rules := text)
    case Description => v.(description := text)
  }

  /** The fields of the "basic" tab, which "Next" validates. */
  const BasicFields: set<Field> := {HostelName, Location, Amenities, Price, Rules, Description}
  const AllFields: set<Field> := BasicFields + {PhotoList}

  /** The errors a validation pass over `fields` reports, by field. */
  function ErrorsOf(v: Values, fields: set<Field>): map<Field, string> {
    map f | f in fields && FieldError(v, f).Some? :: FieldError(v, f).value
  }

  /** `form.trigger(fields)`: the errors of `fields` are recomputed, every other
      field keeps the error it had. */
  function Trigger(errors: map<Field, string>, v: Values, fields: set<Field>): (e: map<Field, string>)
    ensures forall f :: f !in fields ==> (f in e <==> f in errors) && (f in errors ==> e[f] == errors[f])
    ensures forall f :: f in fields ==> (f in e <==> FieldError(v, f).Some?)
    ensures forall f :: f in fields && f in e ==> Some(e[f]) == FieldError(v, f)
  {
    (errors - fields) + ErrorsOf(v, fields)
  }

  predicate BasicValid(v: Values) {
    ErrorsOf(v, BasicFields) == map[]
  }

  predicate FormValid(v: Values) {
    ErrorsOf(v, AllFields) == map[]
  }

  /** The basic tab passes iff the hostel name, location and amenities have a
      length of at least 2, the price is a non-empty string of digits 0-9, the
      rules have a length of at least 10 and the description at least 20. */
  lemma BasicValidIff(v: Values)
    ensures BasicValid(v) <==>
      CodeUnits(v.hostelName) >= 2 && CodeUnits(v.location) >= 2 && CodeUnits(v.amenities) >= 2
      && IsDigitString(v.price) && CodeUnits(v.rules) >= 10 && CodeUnits(v.description) >= 20
  {
    NoErrorsIff(v, BasicFields);
    var h, l, a := FieldError(v, HostelName), FieldError(v, Location), FieldError(v, Amenities);
    var p, r, d := FieldError(v, Price), FieldError(v, Rules), FieldError(v, Description);
    if h.None? && l.None? && a.None? && p.None? && r.None? && d.None? {
      forall f | f in BasicFields ensures FieldError(v, f).None? {
      }
    }
  }

  /** A validation pass reports nothing iff every field validated passes. */
  lemma NoErrorsIff(v: Values, fields: set<Field>)
    ensures ErrorsOf(v, fields) == map[] <==> forall f :: f in fields ==> FieldError(v, f).None?
  {
    if ErrorsOf(v, fields) == map[] {
      forall f | f in fields ensures FieldError(v, f).None? {
        assert f !in ErrorsOf(v, fields);
      }
    } else {
      var f :| f in ErrorsOf(v, fields);
    }
  }

  /** The whole form passes iff the basic tab does and there are at least 5 photos. */
  lemma FormValidIff(v: Values)
    ensures FormValid(v) <==> BasicValid(v) && |v.photos| >= MinPhotos
  {
    var e := ErrorsOf(v, AllFields);
    if e == map[] {
      assert PhotoList !in e;
      assert ErrorsOf(v, BasicFields) == map[] by {
        forall f | f in BasicFields ensures f !in ErrorsOf(v, BasicFields) {
          assert f !in e;
        }
      }
    } else {
      var f :| f in e;
      if f != PhotoList {
        assert f in ErrorsOf(v, BasicFields);
      }
    }
  }

  /** The photos play no part in the basic tab's validation. */
  lemma BasicValidIgnoresPhotos(v: Values, photos: seq<File>)
    ensures BasicValid(v) <==> BasicValid(v.(photos := photos))
  {
    BasicValidIff(v);
    BasicValidIff(v.(photos := photos));
  }

  /** The default values fail on every field. */
  lemma DefaultsFailEverywhere()
    ensures ErrorsOf(DefaultValues, AllFields).Keys == AllFields
    ensures !BasicValid(DefaultValues) && !FormValid(DefaultValues)
  {
    assert HostelName in ErrorsOf(DefaultValues, BasicFields);
    assert HostelName in ErrorsOf(DefaultValues, AllFields);
  }

  /** A price is reported missing when empty and not a number when it holds
      anything but digits; a blank hostel name of two spaces passes, since no
      field is trimmed. */
  lemma PriceAndUntrimmedCases(v: Values)
    ensures FieldError(v.(price := ""), Price) == Some("Price is required.")
    ensures FieldError(v.(price := "12a"), Price) == Some("Price must be a number.")
    ensures FieldError(v.(price := "1200"), Price) == None
    ensures FieldError(v.(hostelName := "  "), HostelName) == None
  {
    assert !IsDigit("12a"[2]);
    assert CodeUnits("12a") >= 3;
  }

  /** One character above U+FFFF is a hostel name of length 2, so it passes. */
  lemma AstralNamePasses(v: Values)
    ensures FieldError(v.(hostelName := "\U{1F600}"), HostelName) == None
  {
    AstralCharacterLength();
  }

  // ---------------------------------------------------------------------------
  // Photo selection

  /** The filter of `handleFileChange`: an image type under the size ceiling. */
  predicate Accepted(f: File) {
    StartsWith(f.mimeType, "image/") && f.size <= MaxPhotoBytes
  }

  /** `files.filter(Accepted)`. */
  function AcceptedFiles(files: seq<File>): (kept: seq<File>)
    ensures |kept| <= |files|
    ensures forall i :: 0 <= i < |kept| ==> Accepted(kept[i])
  {
    if files == [] then []
    else (if Accepted(files[0]) then [files[0]] else []) + AcceptedFiles(files[1..])
  }

  /** Filtering a concatenation filters each part, in order. */
  lemma {:induction false} AcceptedFilesAppend(a: seq<File>, b: seq<File>)
    ensures AcceptedFiles(a + b) == AcceptedFiles(a) + AcceptedFiles(b)
  {
    if a == [] {
      assert a + b == b;
    } else {
      assert (a + b)[0] == a[0];
      assert (a + b)[1..] == a[1..] + b;
      AcceptedFilesAppend(a[1..], b);
    }
  }

  /** The filter keeps every accepted file as often as it occurs, and no other file. */
  lemma {:induction false} AcceptedFilesCounts(files: seq<File>, f: File)
    ensures multiset(AcceptedFiles(files))[f] == if Accepted(f) then multiset(files)[f] else 0
  {
    if files != [] {
      AcceptedFilesCounts(files[1..], f);
      var head := if Accepted(files[0]) then [files[0]] else [];
      assert AcceptedFiles(files) == head + AcceptedFiles(files[1..]);
      assert files == [files[0]] + files[1..];
      assert multiset(files) == multiset([files[0]]) + multiset(files[1..]);
    }
  }

  /** Nothing is dropped iff every file is an image under the ceiling. */
  lemma {:induction false} AcceptedFilesKeepsAllIff(files: seq<File>)
    ensures |AcceptedFiles(files)| == |files| <==> forall i :: 0 <= i < |files| ==> Accepted(files[i])
    ensures |AcceptedFiles(files)| == |files| <==> AcceptedFiles(files) == files
  {
    if files != [] {
      AcceptedFilesKeepsAllIff(files[1..]);
      if !Accepted(files[0]) {
        assert |AcceptedFiles(files)| < |files|;
      } else if forall i :: 0 <= i < |files| - 1 ==> Accepted(files[1..][i]) {
        assert forall i :: 0 <= i < |files| ==> Accepted(files[i]) by {
          forall i | 0 < i < |files| ensures Accepted(files[i]) {
            assert files[i] == files[1..][i - 1];
          }
        }
      }
      if AcceptedFiles(files) == files {
        assert files == [files[0]] + files[1..];
      }
    }
  }

  /** An object URL returned by `URL.createObjectURL`, as a handle number. */
  type Preview = nat

  /** The `n` consecutive handles from `lo`: the object URLs created for `n` new files. */
  function Fresh(lo: Preview, n: nat): (r: seq<Preview>)
    ensures |r| == n && forall i :: 0 <= i < n ==> r[i] == lo + i
  {
    seq(n, i requires 0 <= i < n => lo + i)
  }

  /** `s.splice(i, 1)` on a copy, for an index inside the list. */
  function RemoveAt<T>(s: seq<T>, i: nat): (r: seq<T>)
    requires i < |s|
    ensures |r| == |s| - 1
    ensures forall j :: 0 <= j < i ==> r[j] == s[j]
    ensures forall j :: i <= j < |r| ==> r[j] == s[j + 1]
    ensures multiset(r) + multiset{s[i]} == multiset(s)
  {
    assert s == s[..i] + [s[i]] + s[i + 1..];
    s[..i] + s[i + 1..]
  }

  // ---------------------------------------------------------------------------
  // The data sent on submit

  /** `amenities.split(',').map(a => a.trim())`. */
  function AmenityList(amenities: string): (list: seq<string>)
    ensures |list| == Count(amenities, ',') + 1
  {
    SplitCount(amenities, ',');
    var parts := Split(amenities, ',');
    seq(|parts|, i requires 0 <= i < |parts| => Trim(parts[i]))
  }

  /** Each amenity is a comma-free piece with no white space at either end. */
  lemma AmenityListPieces(amenities: string)
    ensures forall i :: 0 <= i < |AmenityList(amenities)| ==>
      ',' !in AmenityList(amenities)[i] && Trim(AmenityList(amenities)[i]) == AmenityList(amenities)[i]
  {
    var parts := Split(amenities, ',');
    var list := AmenityList(amenities);
    forall i | 0 <= i < |list|
      ensures ',' !in list[i] && Trim(list[i]) == list[i]
    {
      assert list[i] == Trim(parts[i]);
      TrimIdempotent(parts[i]);
      TrimKeepsOnly(parts[i], ',');
    }
  }

  /** A list written without spaces around its commas joins back to itself. */
  lemma AmenityListRoundTrip(amenities: string)
    requires forall i :: 0 <= i < |Split(amenities, ',')| ==> Trim(Split(amenities, ',')[i]) == Split(amenities, ',')[i]
    ensures Join(AmenityList(amenities), ',') == amenities
  {
    assert AmenityList(amenities) == Split(amenities, ',');
    JoinSplit(amenities, ',');
  }

  /** The hostel record posted to the backend. */
  datatype Payload = Payload(
    hostelName: string,
    location: string,
    amenities: seq<string>,
    price: nat,
    rules: string,
    description: string,
    photos: seq<string>,
    createdAt: string,
    status: string)

  /** `hostelData`, built from validated values, the uploaded photos' URLs and
      `new Date().toISOString()` (given as `now`). */
  function BuildPayload(v: Values, photoUrls: seq<string>, now: string): (p: Payload)
    requires FormValid(v)
    ensures p.hostelName == v.hostelName && p.location == v.location
    ensures p.rules == v.rules && p.description == v.description
    ensures p.amenities == AmenityList(v.amenities)
    ensures IsDigitString(v.price) && p.price == DecimalValue(v.price)
    ensures !StartsWith(v.price, "0") ==> Numeral(p.price) == v.price
    ensures p.photos == photoUrls && p.createdAt == now && p.status == "pending"
  {
    FormValidIff(v);
    BasicValidIff(v);
    NumeralOfDecimalValue(v.price);
    Payload(v.hostelName, v.location, AmenityList(v.amenities), DecimalValue(v.price),
            v.rules, v.description, photoUrls, now, "pending")
  }

  /** A numeral without a leading zero is the shortest numeral of its value. */
  lemma {:induction false} NumeralOfDecimalValue(s: string)
    requires IsDigitString(s)
    ensures s[0] != '0' ==> Numeral(DecimalValue(s)) == s
  {
    if s[0] != '0' && |s| > 1 {
      var init := s[..|s| - 1];
      assert init[0] == s[0];
      NumeralOfDecimalValue(init);
      assert s == init + [s[|s| - 1]];
    }
  }

  // ---------------------------------------------------------------------------
  // The page state

  /** A notice shown with `toast`. */
  datatype Toast = Toast(title: string, description: string, destructive: bool)

  /** How the upload and the create request of `onSubmit` ended. `Failed` carries
      the thrown `Error`'s message, or `None` for a thrown non-Error value. */
  datatype SubmitOutcome = Created | Failed(message: Option<string>)

  class CreateHostelPage {
    var activeTab: Tab
    var values: Values
    var errors: map<Field, string>
    var previewUrls: seq<Preview>
    var isSubmitting: bool
    /** react-hook-form's `isSubmitted`: after a submit attempt, every change re-validates its field. */
    var submitted: bool
    /** Every object URL passed to `URL.revokeObjectURL`, in order. */
    var revoked: seq<Preview>
    /** The next object URL `URL.createObjectURL` hands out. */
    var nextPreview: Preview

    /** One live, distinct, unrevoked preview per photo. */
    ghost predicate Valid()
      reads this
    {
      |values.photos| == |previewUrls|
      && (forall i :: 0 <= i < |previewUrls| ==> previewUrls[i] < nextPreview && previewUrls[i] !in revoked)
      && (forall i, j :: 0 <= i < j < |previewUrls| ==> previewUrls[i] != previewUrls[j])
      && (forall k :: 0 <= k < |revoked| ==> revoked[k] < nextPreview)
    }

    /** The controls ("Next", "Previous", submit) are enabled. */
    predicate ControlsEnabled()
      reads this
    {
      !isSubmitting
    }

    constructor ()
      ensures Valid()
      ensures activeTab == Basic && values == DefaultValues && errors == map[]
      ensures previewUrls == [] && !isSubmitting && !submitted && revoked == []
    {
      activeTab := Basic;
      values := DefaultValues;
      errors := map[];
      previewUrls := [];
      isSubmitting := false;
      submitted := false;
      revoked := [];
      nextPreview := 0;
    }

    /** Typing into a text field: its value is replaced. Before the first submit
        attempt no error changes; after it, that field alone is re-validated. */
    method SetText(f: Field, text: string)
      requires f != PhotoList
      modifies this`values, this`errors
      ensures values == WithText(old(values), f, text)
      ensures errors == if submitted then Trigger(old(errors), values, {f}) else old(errors)
      ensures old(Valid()) ==> Valid()
    {
      values := WithText(values, f, text);
      if submitted {
        errors := Trigger(errors, values, {f});
      }
    }

    /** "Next": from the basic tab, validate its six fields and move to the
        photos tab iff they pass; on the photos tab, do nothing. */
    method HandleNext()
      modifies this`activeTab, this`errors
      ensures old(activeTab) == Basic ==>
        errors == Trigger(old(errors), values, BasicFields)
        && activeTab == (if BasicValid(values) then Photos else Basic)
      ensures old(activeTab) == Photos ==> activeTab == Photos && errors == old(errors)
    {
      if activeTab == Basic {
        errors := Trigger(errors, values, BasicFields);
        var isValid := ErrorsOf(values, BasicFields) == map[];
        if isValid {
          activeTab := Photos;
        }
      }
    }

    /** "Previous": back to the basic tab, without validating. */
    method HandlePrevious()
      modifies this`activeTab
      ensures activeTab == Basic
    {
      if activeTab == Photos {
        activeTab := Basic;
      }
    }

    /** A click on a tab trigger sets the tab directly, without validating. */
    method SelectTab(tab: Tab)
      modifies this`activeTab
      ensures activeTab == tab
    {
      activeTab := tab;
    }

    /** The file input's change: keep the images under 10 MB, append them to the
        photos and one new object URL each to the previews, and raise one notice
        iff some file was dropped. `None` is an input without a file list. */
    method HandleFileChange(files: Option<seq<File>>) returns (rejectedNotice: bool)
      requires Valid()
      modifies this`values, this`previewUrls, this`nextPreview
      ensures Valid()
      ensures files.None? ==>
        !rejectedNotice && values == old(values) && previewUrls == old(previewUrls)
      ensures files.Some? ==>
        var kept := AcceptedFiles(files.value);
        && rejectedNotice == (|kept| != |files.value|)
        && values == old(values).(photos := old(values.photos) + kept)
        && previewUrls == old(previewUrls) + Fresh(old(nextPreview), |kept|)
    {
      rejectedNotice := false;
      if files.Some? {
        var validFiles := AcceptedFiles(files.value);
        rejectedNotice := |validFiles| != |files.value|;
        values := values.(photos := values.photos + validFiles);
        var newPreviewUrls := Fresh(nextPreview, |validFiles|);
        previewUrls := previewUrls + newPreviewUrls;
        nextPreview := nextPreview + |validFiles|;
      }
    }

    /** The remove button on preview `index`: drop that photo and that preview,
        and revoke that preview's object URL. */
    method RemoveImage(index: nat)
      requires Valid() && index < |previewUrls|
      modifies this`values, this`previewUrls, this`revoked
      ensures Valid()
      ensures values == old(values).(photos := RemoveAt(old(values.photos), index))
      ensures previewUrls == RemoveAt(old(previewUrls), index)
      ensures revoked == old(revoked) + [old(previewUrls)[index]]
    {
      var updatedPhotos := RemoveAt(values.photos, index);
      values := values.(photos := updatedPhotos);
      var updatedPreviews := previewUrls;
      revoked := revoked + [updatedPreviews[index]];
      updatedPreviews := RemoveAt(updatedPreviews, index);
      previewUrls := updatedPreviews;
    }

    /** The submit button (`form.handleSubmit(onSubmit)`): validate every field;
        when all pass, `onSubmit` starts and sets `isSubmitting`. Nothing checks
        `isSubmitting` here: only the disabled buttons keep a second submit away. */
    method HandleSubmit() returns (started: bool)
      modifies this`errors, this`isSubmitting, this`submitted
      ensures errors == ErrorsOf(values, AllFields) && submitted
      ensures started <==> FormValid(values)
      ensures isSubmitting == (started || old(isSubmitting))
      ensures started ==> !ControlsEnabled()
    {
      errors := ErrorsOf(values, AllFields);
      submitted := true;
      started := errors == map[];
      if started {
        isSubmitting := true;
      }
    }

    /** The end of `onSubmit`: on success reset the form and drop the previews
        (without revoking them) and go to the hostel list; on failure keep every
        value. Either way `isSubmitting` is cleared. */
    method FinishSubmit(outcome: SubmitOutcome) returns (toast: Toast, redirect: Option<string>)
      requires Valid()
      modifies this`values, this`errors, this`previewUrls, this`isSubmitting, this`submitted
      ensures Valid() && !isSubmitting && ControlsEnabled()
      ensures outcome.Created? ==>
        values == DefaultValues && errors == map[] && previewUrls == [] && !submitted
        && redirect == Some("/owner/hostels")
        && toast == Toast("Hostel created successfully!",
                          old(values.hostelName) + " has been added to your listings", false)
      ensures outcome.Failed? ==>
        values == old(values) && errors == old(errors) && previewUrls == old(previewUrls)
        && submitted == old(submitted)
        && redirect == None && toast.destructive
        && toast.description == (if outcome.message.Some? then outcome.message.value
                                 else "Something went wrong. Please try again.")
    {
      match outcome {
        case Created =>
          toast := Toast("Hostel created successfully!", values.hostelName + " has been added to your listings", false);
          values := DefaultValues;
          errors := map[];
          submitted := false;
          previewUrls := [];
          redirect := Some("/owner/hostels");
        case Failed(message) =>
          var description := if message.Some? then message.value else "Something went wrong. Please try again.";
          toast := Toast("Error creating hostel", description, true);
          redirect := None;
      }
      isSubmitting := false;
    }
  }
}
