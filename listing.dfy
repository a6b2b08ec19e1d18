/** The values behind the marketplace "create listing" form: the draft, the
    files a user selects, the notifications the form raises, the record that is
    inserted, and the pure parts of the three operations (the photo-intake
    batch, the removal filter, the submission guard chain and record builder).
 */
module Listing {

  datatype Option<+T> = None | Some(value: T)

  /** The most photos a listing may carry. */
  const MAX_PHOTOS: int := 5

  /** The route the form navigates to once a listing is created. */
  const LISTINGS_ROUTE: string := "/marketplace/mes-annonces"

  /** Shown when the store's error carries an empty message. */
  const DEFAULT_CREATION_ERROR: string :=
    "Une erreur est survenue lors de la cr\U{e9}ation de l'annonce."

  /** The signed-in user, as handed to the form. */
  datatype Profile = Profile(id: string)

  /** A user is identified when there is a profile and its id is not empty
      (JavaScript treats a missing or empty id as false). */
  predicate HasIdentity(profile: Option<Profile>): (r: bool)
    ensures r <==> OwnerId(profile) != ""
    ensures r ==> profile.Some?
  {
    profile.Some? && profile.value.id != ""
  }

  function OwnerId(profile: Option<Profile>): string {
    if profile.Some? then profile.value.id else ""
  }

  /** What `parseFloat` can yield: a finite number, an infinity, or NaN. */
  datatype JsNumber = Finite(value: real) | PositiveInfinity | NegativeInfinity | NaN

  /** JavaScript's `n <= 0`; every comparison with NaN is false. */
  predicate AtMostZero(n: JsNumber): (r: bool)
    ensures n.Finite? ==> (r <==> n.value <= 0.0)
    ensures r ==> n != NaN && n != PositiveInfinity
    ensures n == NegativeInfinity ==> r
  {
    match n
    case Finite(r) => r <= 0.0
    case NegativeInfinity => true
    case PositiveInfinity => false
    case NaN => false
  }

  /** The storage service's answer to one upload request. */
  datatype UploadOutcome = Stored(path: string) | Rejected(message: string)

  /** A file the user selected, together with what the environment answers for
      it if it is processed: the local preview token `URL.createObjectURL`
      creates, the clock reading `Date.now()` gives when its key is built, and
      the storage service's reply to its upload. */
  datatype SelectedFile = SelectedFile(name: string, preview: string, stamp: nat, upload: UploadOutcome)

  datatype Severity = Warning | Destructive | Success

  /** The user-facing notifications the form raises. */
  datatype Notice =
    | PhotoLimitReached
    | UploaderUnknown
    | UploadError(fileName: string, message: string)
    | LoginRequired
    | PhotosMissing
    | InvalidPrice
    | CategoryMissing
    | ListingCreated
    | CreationError(description: string)

  /** The toast variant of each notice: the limit and validation notices are
      warnings, the failures destructive, and only creation a success. */
  function SeverityOf(n: Notice): (r: Severity)
    ensures r == Success <==> n == ListingCreated
    ensures r == Warning <==> n in {PhotoLimitReached, PhotosMissing, InvalidPrice, CategoryMissing}
    ensures r == Destructive <==> (n.UploadError? || n.CreationError? || n == UploaderUnknown || n == LoginRequired)
  {
    match n
    case PhotoLimitReached => Warning
    case UploaderUnknown => Destructive
    case UploadError(_, _) => Destructive
    case LoginRequired => Destructive
    case PhotosMissing => Warning
    case InvalidPrice => Warning
    case CategoryMissing => Warning
    case ListingCreated => Success
    case CreationError(_) => Destructive
  }

  /** The fields of the draft that submission reads. */
  datatype Draft = Draft(
    title: string,
    description: string,
    price: string,
    category: string,
    location: string,
    photos: seq<string>,
    listingType: string,
    tradePreferences: string)

  /** The row inserted into the listings table. */
  datatype ListingRecord = ListingRecord(
    userId: string,
    title: string,
    description: string,
    price: Option<JsNumber>,
    category: string,
    location: string,
    photos: seq<string>,
    listingType: string,
    tradePreferences: Option<string>,
    boosted: bool,
    isActive: bool)

  /** The record store's answer to the insert. */
  datatype InsertOutcome = InsertOk | InsertError(message: string)

  // ---------------------------------------------------------------------------
  // Photo intake

  function Min(a: int, b: int): int { if a <= b then a else b }

  /** The end index `Array.prototype.slice(0, end)` uses on an array of length
      `len`: a negative end counts back from the length. */
  function SliceEnd(len: nat, end: int): (r: nat)
    ensures r <= len
    ensures 0 <= end ==> r == Min(len, end)
    ensures end < 0 ==> r == len - Min(len, -end)
  {
    if end < 0 then (if len + end < 0 then 0 else len + end)
    else Min(len, end)
  }

  /** The files of a batch the intake processes when `current` photos are
      already accepted: the batch cut at `MAX_PHOTOS - current`. */
  function AcceptedFiles(files: seq<SelectedFile>, current: nat): (r: seq<SelectedFile>)
    ensures r <= files
    ensures current <= MAX_PHOTOS ==> |r| == Min(|files|, MAX_PHOTOS - current)
    ensures current == MAX_PHOTOS ==> r == []
  {
    files[..SliceEnd(|files|, MAX_PHOTOS - current)]
  }

  /** The public URLs of the files whose upload succeeded, in file order. */
  function SuccessUrls(fs: seq<SelectedFile>, publicUrl: string -> string): seq<string>
  {
    if fs == [] then []
    else
      var last := fs[|fs| - 1];
      SuccessUrls(fs[..|fs| - 1], publicUrl)
        + (if last.upload.Stored? then [publicUrl(last.upload.path)] else [])
  }

  /** The error notifications of the files whose upload failed, in file order. */
  function UploadNotices(fs: seq<SelectedFile>): seq<Notice>
  {
    if fs == [] then []
    else
      var last := fs[|fs| - 1];
      UploadNotices(fs[..|fs| - 1])
        + (if last.upload.Rejected? then [UploadError(last.name, last.upload.message)] else [])
  }

  /** One preview token per processed file, in file order. */
  function PreviewsOf(fs: seq<SelectedFile>): (r: seq<string>)
    ensures |r| == |fs| && forall j :: 0 <= j < |fs| ==> r[j] == fs[j].preview
  {
    seq(|fs|, j requires 0 <= j < |fs| => fs[j].preview)
  }

  /** Decimal digits of a natural number, as `${Date.now()}` renders it. */
  function Decimal(n: nat): (r: string)
    ensures |r| >= 1
    ensures forall j :: 0 <= j < |r| ==> '0' <= r[j] <= '9'
    ensures r[0] == '0' ==> n == 0
  {
    var d := ['0', '1', '2', '3', '4', '5', '6', '7', '8', '9'][n % 10];
    if n < 10 then [d] else Decimal(n / 10) + [d]
  }

  /** The value of one decimal digit character (0 for any other character). */
  function DigitValue(c: char): nat
  {
    if '0' <= c <= '9' then c as int - '0' as int else 0
  }

  /** The number a string of decimal digits denotes. */
  function DecimalValue(s: string): nat
  {
    if s == [] then 0 else DecimalValue(s[..|s| - 1]) * 10 + DigitValue(s[|s| - 1])
  }

  /** Reading back the digits of `Decimal(n)` gives `n`: the rendering is the
      decimal numeral of the clock reading. */
  lemma {:induction false} DecimalRoundTrip(n: nat)
    ensures DecimalValue(Decimal(n)) == n
  {
    var d := ['0', '1', '2', '3', '4', '5', '6', '7', '8', '9'][n % 10];
    LastDigit(n);
    if n >= 10 {
      var prefix := Decimal(n / 10);
      DecimalRoundTrip(n / 10);
      assert Decimal(n) == prefix + [d];
      assert (prefix + [d])[..|prefix|] == prefix;
      assert DecimalValue(Decimal(n)) == (n / 10) * 10 + n % 10;
    }
  }

  lemma LastDigit(n: nat)
    ensures DigitValue(['0', '1', '2', '3', '4', '5', '6', '7', '8', '9'][n % 10]) == n % 10
  {
    var k := n % 10;
    if k == 0 {} else if k == 1 {} else if k == 2 {} else if k == 3 {} else if k == 4 {}
    else if k == 5 {} else if k == 6 {} else if k == 7 {} else if k == 8 {} else {}
  }

  /** The storage key of a file: `{owner}/{stamp}-{name}`. */
  function StorageKey(owner: string, f: SelectedFile): string
  {
    owner + "/" + Decimal(f.stamp) + "-" + f.name
  }

  /** Every key lies in the owner's folder and ends with the file's name, the
      two separated by the decimal clock reading and a dash. */
  lemma StorageKeyParts(owner: string, f: SelectedFile)
    ensures var key, stamp := StorageKey(owner, f), Decimal(f.stamp);
      && |key| == |owner| + 1 + |stamp| + 1 + |f.name|
      && key[..|owner| + 1] == owner + "/"
      && key[|owner| + 1..|owner| + 1 + |stamp|] == stamp
      && key[|owner| + 1 + |stamp|] == '-'
      && key[|key| - |f.name|..] == f.name
  {
    var key, stamp := StorageKey(owner, f), Decimal(f.stamp);
    assert key == owner + "/" + stamp + "-" + f.name;
  }

  /** The keys of the upload requests made for the processed files, in order. */
  function UploadKeys(owner: string, fs: seq<SelectedFile>): (r: seq<string>)
    ensures |r| == |fs| && forall j :: 0 <= j < |fs| ==> r[j] == StorageKey(owner, fs[j])
  {
    seq(|fs|, j requires 0 <= j < |fs| => StorageKey(owner, fs[j]))
  }

  /** What processing one more file of a batch adds to each of the intake's
      accumulated sequences. */
  lemma IntakeStep(fs: seq<SelectedFile>, i: nat, owner: string, publicUrl: string -> string)
    requires i < |fs|
    ensures SuccessUrls(fs[..i + 1], publicUrl) == SuccessUrls(fs[..i], publicUrl)
      + (if fs[i].upload.Stored? then [publicUrl(fs[i].upload.path)] else [])
    ensures UploadNotices(fs[..i + 1]) == UploadNotices(fs[..i])
      + (if fs[i].upload.Rejected? then [UploadError(fs[i].name, fs[i].upload.message)] else [])
    ensures PreviewsOf(fs[..i + 1]) == PreviewsOf(fs[..i]) + [fs[i].preview]
    ensures UploadKeys(owner, fs[..i + 1]) == UploadKeys(owner, fs[..i]) + [StorageKey(owner, fs[i])]
  {
    assert fs[..i + 1][..i] == fs[..i];
    PreviewsStep(fs[..i + 1]);
    KeysStep(owner, fs[..i + 1]);
  }

  lemma PreviewsStep(fs: seq<SelectedFile>)
    requires fs != []
    ensures PreviewsOf(fs) == PreviewsOf(fs[..|fs| - 1]) + [fs[|fs| - 1].preview]
  {
    var a, b := PreviewsOf(fs), PreviewsOf(fs[..|fs| - 1]) + [fs[|fs| - 1].preview];
    assert |a| == |b|;
    forall j | 0 <= j < |a| ensures a[j] == b[j] {
      if j < |fs| - 1 { assert b[j] == PreviewsOf(fs[..|fs| - 1])[j]; }
    }
  }

  lemma KeysStep(owner: string, fs: seq<SelectedFile>)
    requires fs != []
    ensures UploadKeys(owner, fs) == UploadKeys(owner, fs[..|fs| - 1]) + [StorageKey(owner, fs[|fs| - 1])]
  {
    var a, b := UploadKeys(owner, fs), UploadKeys(owner, fs[..|fs| - 1]) + [StorageKey(owner, fs[|fs| - 1])];
    assert |a| == |b|;
    forall j | 0 <= j < |a| ensures a[j] == b[j] {
      if j < |fs| - 1 { assert b[j] == UploadKeys(owner, fs[..|fs| - 1])[j]; }
    }
  }

  lemma {:induction false} SuccessUrlsAppend(a: seq<SelectedFile>, b: seq<SelectedFile>, publicUrl: string -> string)
    ensures SuccessUrls(a + b, publicUrl) == SuccessUrls(a, publicUrl) + SuccessUrls(b, publicUrl)
    decreases |b|
  {
    if b == [] {
      assert a + b == a;
    } else {
      var b' := b[..|b| - 1];
      assert (a + b)[..|a + b| - 1] == a + b';
      SuccessUrlsAppend(a, b', publicUrl);
    }
  }

  /** Every processed file yields exactly one of: a public URL, an error notice. */
  lemma {:induction false} OutcomesAccounted(fs: seq<SelectedFile>, publicUrl: string -> string)
    ensures |SuccessUrls(fs, publicUrl)| + |UploadNotices(fs)| == |fs|
    ensures |SuccessUrls(fs, publicUrl)| <= |fs|
    ensures |SuccessUrls(fs, publicUrl)| == |fs| <==> forall j :: 0 <= j < |fs| ==> fs[j].upload.Stored?
  {
    if fs != [] {
      var init := fs[..|fs| - 1];
      OutcomesAccounted(init, publicUrl);
      assert forall j :: 0 <= j < |init| ==> init[j] == fs[j];
    }
  }

  /** The URL of the j-th file, when its upload succeeded, sits right after the
      URLs of the successful files before it: the new URLs keep file order. */
  lemma {:induction false} SuccessUrlPosition(fs: seq<SelectedFile>, publicUrl: string -> string, j: nat)
    requires j < |fs| && fs[j].upload.Stored?
    ensures var k := |SuccessUrls(fs[..j], publicUrl)|;
      k < |SuccessUrls(fs, publicUrl)| && SuccessUrls(fs, publicUrl)[k] == publicUrl(fs[j].upload.path)
  {
    assert fs == fs[..j] + ([fs[j]] + fs[j + 1..]);
    SuccessUrlsAppend(fs[..j], [fs[j]] + fs[j + 1..], publicUrl);
    SuccessUrlsAppend([fs[j]], fs[j + 1..], publicUrl);
    assert [fs[j]][..0] == [];
  }

  /** Intake keeps the number of accepted photos within MAX_PHOTOS. */
  lemma IntakeKeepsBound(current: nat, files: seq<SelectedFile>, publicUrl: string -> string)
    requires current <= MAX_PHOTOS
    ensures current + |SuccessUrls(AcceptedFiles(files, current), publicUrl)| <= MAX_PHOTOS
  {
    OutcomesAccounted(AcceptedFiles(files, current), publicUrl);
  }

  /** When every upload of a batch fails, no URL is added but every file still
      leaves a preview: the two sequences end up of different lengths. */
  lemma FailedUploadsDrift(files: seq<SelectedFile>, publicUrl: string -> string)
    requires files != [] && forall j :: 0 <= j < |files| ==> files[j].upload.Rejected?
    ensures SuccessUrls(files, publicUrl) == []
    ensures |PreviewsOf(files)| == |files| > 0
    ensures UploadNotices(files) == seq(|files|, j requires 0 <= j < |files| => UploadError(files[j].name, files[j].upload.message))
  {
    OutcomesAccounted(files, publicUrl);
    NoticesOfRejected(files);
  }

  lemma {:induction false} NoticesOfRejected(fs: seq<SelectedFile>)
    requires forall j :: 0 <= j < |fs| ==> fs[j].upload.Rejected?
    ensures UploadNotices(fs) == seq(|fs|, j requires 0 <= j < |fs| => UploadError(fs[j].name, fs[j].upload.message))
  {
    if fs != [] {
      NoticesOfRejected(fs[..|fs| - 1]);
    }
  }

  // ---------------------------------------------------------------------------
  // Photo removal

  /** `s.filter((_, index) => index !== i)`. */
  function WithoutIndex<T>(s: seq<T>, i: int): seq<T>
  {
    if s == [] then []
    else WithoutIndex(s[..|s| - 1], i) + (if |s| - 1 != i then [s[|s| - 1]] else [])
  }

  /** The filter deletes position i and keeps every other element in its
      relative order; an index outside the sequence changes nothing. */
  lemma {:induction false} WithoutIndexRemoves<T>(s: seq<T>, i: int)
    ensures WithoutIndex(s, i) == if 0 <= i < |s| then s[..i] + s[i + 1..] else s
  {
    if s != [] {
      var init := s[..|s| - 1];
      WithoutIndexRemoves(init, i);
      if 0 <= i < |init| {
        assert init[..i] == s[..i];
        assert init[i + 1..] + [s[|s| - 1]] == s[i + 1..];
      } else if i == |init| {
        assert s[..i] + s[i + 1..] == init;
      } else {
        assert init + [s[|s| - 1]] == s;
      }
    }
  }

  /** Removing one index never lengthens a sequence and shortens it by one
      exactly when the index lies inside it. */
  lemma RemovalLength<T>(s: seq<T>, i: int)
    ensures |WithoutIndex(s, i)| == if 0 <= i < |s| then |s| - 1 else |s|
  {
    WithoutIndexRemoves(s, i);
  }

  /** After one failed upload followed by one successful one, removing index 0
      drops the only URL but keeps the preview of the file that did upload:
      in this batch, removal pairs a URL with the wrong preview. */
  lemma RemovalAfterDrift(publicUrl: string -> string)
    ensures var fs := [SelectedFile("a.png", "t1", 1, Rejected("e")),
                       SelectedFile("b.png", "t2", 2, Stored("u/2-b.png"))];
      WithoutIndex(SuccessUrls(fs, publicUrl), 0) == []
      && WithoutIndex(PreviewsOf(fs), 0) == ["t2"]
  {
    var fs := [SelectedFile("a.png", "t1", 1, Rejected("e")),
               SelectedFile("b.png", "t2", 2, Stored("u/2-b.png"))];
    assert fs[..1][..0] == [];
    assert SuccessUrls(fs, publicUrl) == [publicUrl("u/2-b.png")];
    WithoutIndexRemoves(SuccessUrls(fs, publicUrl), 0);
    WithoutIndexRemoves(PreviewsOf(fs), 0);
  }

  /** Once a file of a batch has failed, every URL position `i` at or after it
      holds the URL of a later file than the preview at position `i`: removing
      index `i` then deletes a URL and a preview of two different files. */
  lemma DriftMisaligns(fs: seq<SelectedFile>, publicUrl: string -> string, k: nat, i: nat)
    requires k <= i && k < |fs| && fs[k].upload.Rejected?
    requires i < |SuccessUrls(fs, publicUrl)|
    ensures i < |PreviewsOf(fs)| && PreviewsOf(fs)[i] == fs[i].preview
    ensures exists j ::
      i < j < |fs| && fs[j].upload.Stored? && SuccessUrls(fs, publicUrl)[i] == publicUrl(fs[j].upload.path)
  {
    OutcomesAccounted(fs, publicUrl);
    SuccessSource(fs, publicUrl, i);
    var j :| 0 <= j < |fs| && fs[j].upload.Stored? && |SuccessUrls(fs[..j], publicUrl)| == i;
    SuccessUrlPosition(fs, publicUrl, j);
    OutcomesAccounted(fs[..j], publicUrl);
    assert k < j ==> fs[..j][k] == fs[k];
    assert i < j;
  }

  /** The i-th URL of a batch comes from a stored file preceded by exactly i
      successful files. */
  lemma {:induction false} SuccessSource(fs: seq<SelectedFile>, publicUrl: string -> string, i: nat)
    requires i < |SuccessUrls(fs, publicUrl)|
    ensures exists j :: 0 <= j < |fs| && fs[j].upload.Stored? && |SuccessUrls(fs[..j], publicUrl)| == i
  {
    var init := fs[..|fs| - 1];
    SuccessCountStep(fs, |fs| - 1, publicUrl);
    assert fs[..|fs|] == fs;
    if i < |SuccessUrls(init, publicUrl)| {
      SuccessSource(init, publicUrl, i);
      var j :| 0 <= j < |init| && init[j].upload.Stored? && |SuccessUrls(init[..j], publicUrl)| == i;
      assert init[..j] == fs[..j];
      assert fs[j].upload.Stored?;
    } else {
      assert fs[|fs| - 1].upload.Stored? && |SuccessUrls(fs[..|fs| - 1], publicUrl)| == i;
    }
  }

  lemma SuccessCountStep(fs: seq<SelectedFile>, j: nat, publicUrl: string -> string)
    requires j < |fs|
    ensures |SuccessUrls(fs[..j + 1], publicUrl)| == |SuccessUrls(fs[..j], publicUrl)| + (if fs[j].upload.Stored? then 1 else 0)
  {
    assert fs[..j + 1][..j] == fs[..j];
  }

  // ---------------------------------------------------------------------------
  // Submission

  /** `!price || parseFloat(price) <= 0`: an empty price or one that parses to
      a number at most zero. NaN is not caught. */
  predicate PriceRejected(price: string, parse: string -> JsNumber) {
    price == "" || AtMostZero(parse(price))
  }

  /** The guard chain run before a listing is submitted, in the source's order:
      identity, at least one photo, a valid price for a sale, a category. It
      yields the notice of the first check that fails, or None. */
  function SubmitGuard(profile: Option<Profile>, d: Draft, parse: string -> JsNumber): (r: Option<Notice>)
    ensures r.None? <==>
      HasIdentity(profile) && d.photos != []
      && !(d.listingType == "sale" && PriceRejected(d.price, parse))
      && d.category != ""
    ensures r.Some? ==> r.value in {LoginRequired, PhotosMissing, InvalidPrice, CategoryMissing}
    ensures r == Some(LoginRequired) <==> !HasIdentity(profile)
    ensures r == Some(PhotosMissing) <==> HasIdentity(profile) && d.photos == []
    ensures r == Some(InvalidPrice) ==>
      HasIdentity(profile) && d.photos != [] && d.listingType == "sale" && PriceRejected(d.price, parse)
    ensures r == Some(CategoryMissing) ==>
      HasIdentity(profile) && d.photos != []
      && !(d.listingType == "sale" && PriceRejected(d.price, parse)) && d.category == ""
  {
    if !HasIdentity(profile) then Some(LoginRequired)
    else if |d.photos| == 0 then Some(PhotosMissing)
    else if d.listingType == "sale" && (d.price == "" || AtMostZero(parse(d.price))) then Some(InvalidPrice)
    else if d.category == "" then Some(CategoryMissing)
    else None
  }

  /** A listing that is not for sale passes or fails the guard whatever its
      price says. */
  lemma TradeIgnoresPrice(profile: Option<Profile>, d: Draft, parse: string -> JsNumber, otherPrice: string)
    requires d.listingType != "sale"
    ensures SubmitGuard(profile, d, parse) == SubmitGuard(profile, d.(price := otherPrice), parse)
  {
  }

  /** A sale price that parses to NaN, or to +Infinity, gets through the guard. */
  lemma UnorderedPriceAccepted(profile: Option<Profile>, d: Draft, parse: string -> JsNumber)
    requires HasIdentity(profile) && d.photos != [] && d.category != "" && d.price != ""
    requires parse(d.price) == NaN || parse(d.price) == PositiveInfinity
    ensures SubmitGuard(profile, d, parse) == None
  {
  }

  /** The record built from the draft for the insert. */
  function BuildListing(userId: string, d: Draft, parse: string -> JsNumber): (r: ListingRecord)
    ensures r.userId == userId && r.photos == d.photos
    ensures r.title == d.title && r.description == d.description
    ensures r.category == d.category && r.location == d.location && r.listingType == d.listingType
    ensures r.price.Some? <==> d.listingType == "sale"
    ensures r.price.Some? ==> r.price.value == parse(d.price)
    ensures r.tradePreferences.Some? <==> d.listingType == "trade"
    ensures r.tradePreferences.Some? ==> r.tradePreferences.value == d.tradePreferences
    ensures !(r.price.Some? && r.tradePreferences.Some?)
    ensures !r.boosted && r.isActive
  {
    ListingRecord(
      userId := userId,
      title := d.title,
      description := d.description,
      price := if d.listingType == "sale" then Some(parse(d.price)) else None,
      category := d.category,
      location := d.location,
      photos := d.photos,
      listingType := d.listingType,
      tradePreferences := if d.listingType == "trade" then Some(d.tradePreferences) else None,
      boosted := false,
      isActive := true)
  }

  /** Every record that gets past the guard is owned by an identified user,
      carries the draft's photos (at least one) and its category, is active and
      not boosted; a sale carries the parsed price, which is not at most zero,
      and no trade preferences; a trade carries its preferences and no price. */
  lemma SubmittedRecordIsValid(profile: Option<Profile>, d: Draft, parse: string -> JsNumber)
    requires SubmitGuard(profile, d, parse) == None
    ensures var r := BuildListing(OwnerId(profile), d, parse);
      && r.userId == profile.value.id != ""
      && r.photos == d.photos && |r.photos| >= 1
      && r.category == d.category != ""
      && r.title == d.title && r.description == d.description && r.location == d.location
      && r.listingType == d.listingType
      && !r.boosted && r.isActive
      && (d.listingType == "sale" ==>
            r.price == Some(parse(d.price)) && !AtMostZero(r.price.value) && r.tradePreferences == None)
      && (d.listingType == "trade" ==> r.price == None && r.tradePreferences == Some(d.tradePreferences))
      && (d.listingType != "sale" && d.listingType != "trade" ==> r.price == None && r.tradePreferences == None)
  {
  }

  /** The description shown when the insert fails: the error's message, or a
      default one when that message is empty. */
  function CreationErrorText(message: string): (r: string)
    ensures r != ""
    ensures message != "" ==> r == message
    ensures message == "" ==> r == DEFAULT_CREATION_ERROR
  {
    if message != "" then message else DEFAULT_CREATION_ERROR
  }
}
