/** The image-editing page `src/app/banana/page.tsx`: the remembered order of
    the effect catalogue, the history of generated images, the checks made
    before a generation, the request built from the uploaded data URLs, the
    button's enabled state, the mask tool, and the payment that unlocks
    generation. */
module BananaPage {
  import opened Wrappers
  import opened Strings
  import opened Js
  import opened PaymentTypes
  import opened TokenStore
  import opened Auth
  import opened StellarProvider
  import opened TransferFlow
  import opened Http
  import opened Gemini

  /** An effect of the catalogue, reduced to what the page reads. */
  datatype Transformation = Transformation(id: string, prompt: string, isMultiImage: bool, isTwoStep: bool)

  const CUSTOM_PROMPT: string := "CUSTOM"

  // ---------------------------------------------------------------------------
  // The remembered catalogue order (`transformationOrder` in local storage)

  /** What the initial read of `transformationOrder` finds: no window, no (or
      an empty) entry, an entry `JSON.parse` rejects or that is not a list,
      or a list of ids. */
  datatype SavedOrder = NoWindow | NothingSaved | Unparseable | SavedIds(ids: seq<string>)

  /** `transformations.map(t => t.id)`: what the save effect stores. */
  function Ids(s: seq<Transformation>): (r: seq<string>)
    ensures |r| == |s|
    ensures forall k :: 0 <= k < |s| ==> r[k] == s[k].id
  {
    if |s| == 0 then [] else [s[0].id] + Ids(s[1..])
  }

  /** `new Map(catalogue.map(t => [t.id, t])).get(id)`: a later entry with the
      same id overrides an earlier one. */
  function ById(catalogue: seq<Transformation>, id: string): (r: Option<Transformation>)
    ensures r.Some? ==> r.value in catalogue && r.value.id == id
    ensures r.None? ==> forall k :: 0 <= k < |catalogue| ==> catalogue[k].id != id
  {
    if |catalogue| == 0 then None
    else if catalogue[|catalogue| - 1].id == id then Some(catalogue[|catalogue| - 1])
    else ById(catalogue[..|catalogue| - 1], id)
  }

  /** The saved ids resolved against the catalogue, unknown ones dropped. */
  function Known(catalogue: seq<Transformation>, ids: seq<string>): (r: seq<Transformation>)
    ensures |r| <= |ids|
    ensures forall k :: 0 <= k < |r| ==> r[k] in catalogue && r[k].id in ids
  {
    if |ids| == 0 then []
    else
      var rest := Known(catalogue, ids[1..]);
      match ById(catalogue, ids[0])
      case Some(t) => [t] + rest
      case None => rest
  }

  /** The catalogue entries whose id was not saved, in catalogue order. */
  function Unsaved(catalogue: seq<Transformation>, ids: seq<string>): (r: seq<Transformation>)
    ensures |r| <= |catalogue|
    ensures forall k :: 0 <= k < |r| ==> r[k] in catalogue && r[k].id !in ids
    ensures forall k :: 0 <= k < |catalogue| && catalogue[k].id !in ids ==> catalogue[k] in r
  {
    if |catalogue| == 0 then []
    else
      var rest := Unsaved(catalogue[1..], ids);
      assert forall k :: 1 <= k < |catalogue| ==> catalogue[k] == catalogue[1..][k - 1];
      if catalogue[0].id in ids then rest else [catalogue[0]] + rest
  }

  /** The initial `transformations` state. */
  function RestoreOrder(saved: SavedOrder, catalogue: seq<Transformation>): (r: seq<Transformation>)
    ensures !saved.SavedIds? ==> r == catalogue
    ensures forall k :: 0 <= k < |r| ==> r[k] in catalogue
    ensures saved.SavedIds? ==>
      forall k :: 0 <= k < |catalogue| && catalogue[k].id !in saved.ids ==> catalogue[k] in r
    ensures saved.SavedIds? ==>
      forall k :: 0 <= k < |r| ==> (k < |Known(catalogue, saved.ids)| <==> r[k].id in saved.ids)
  {
    match saved
    case SavedIds(ids) => Known(catalogue, ids) + Unsaved(catalogue, ids)
    case _ => catalogue
  }

  /** The saved ids are resolved in saved order: resolving two runs of ids
      one after the other is resolving their concatenation. */
  lemma {:induction false} KnownDistributes(catalogue: seq<Transformation>, a: seq<string>, b: seq<string>)
    ensures Known(catalogue, a + b) == Known(catalogue, a) + Known(catalogue, b)
  {
    if |a| == 0 {
      assert a + b == b;
    } else {
      assert (a + b)[0] == a[0];
      assert (a + b)[1..] == a[1..] + b;
      KnownDistributes(catalogue, a[1..], b);
    }
  }

  /** A saved id that names a catalogue entry is kept. */
  lemma {:induction false} KnownKeepsFound(catalogue: seq<Transformation>, ids: seq<string>, x: string)
    requires x in ids && ById(catalogue, x).Some?
    ensures ById(catalogue, x).value in Known(catalogue, ids)
  {
    if ids[0] != x {
      assert x in ids[1..];
      KnownKeepsFound(catalogue, ids[1..], x);
    }
  }

  /** The unsaved entries keep catalogue order: filtering two runs of the
      catalogue one after the other is filtering their concatenation. */
  lemma {:induction false} UnsavedDistributes(a: seq<Transformation>, b: seq<Transformation>, ids: seq<string>)
    ensures Unsaved(a + b, ids) == Unsaved(a, ids) + Unsaved(b, ids)
  {
    if |a| == 0 {
      assert a + b == b;
    } else {
      assert (a + b)[0] == a[0];
      assert (a + b)[1..] == a[1..] + b;
      UnsavedDistributes(a[1..], b, ids);
    }
  }

  predicate UniqueIds(s: seq<Transformation>) {
    forall i, j :: 0 <= i < j < |s| ==> s[i].id != s[j].id
  }

  /** With unique ids, looking up a catalogue entry's id finds that entry. */
  lemma {:induction false} ByIdFindsEntry(catalogue: seq<Transformation>, t: Transformation)
    requires UniqueIds(catalogue) && t in catalogue
    ensures ById(catalogue, t.id) == Some(t)
    decreases |catalogue|
  {
    var n := |catalogue|;
    if catalogue[n - 1] != t {
      var k :| 0 <= k < n && catalogue[k] == t;
      assert k < n - 1;
      assert catalogue[..n - 1][k] == t;
      ByIdFindsEntry(catalogue[..n - 1], t);
    }
  }

  /** Saved ids that all name catalogue entries (ids unique) resolve to
      exactly those entries, in saved order. */
  lemma {:induction false} KnownOfMembers(catalogue: seq<Transformation>, q: seq<Transformation>)
    requires UniqueIds(catalogue)
    requires forall k :: 0 <= k < |q| ==> q[k] in catalogue
    ensures Known(catalogue, Ids(q)) == q
  {
    if |q| > 0 {
      ByIdFindsEntry(catalogue, q[0]);
      assert Ids(q)[1..] == Ids(q[1..]);
      KnownOfMembers(catalogue, q[1..]);
    }
  }

  lemma UnsavedEmpty(catalogue: seq<Transformation>, ids: seq<string>)
    requires forall k :: 0 <= k < |catalogue| ==> catalogue[k].id in ids
    ensures Unsaved(catalogue, ids) == []
  {
    var u := Unsaved(catalogue, ids);
    assert forall k :: 0 <= k < |u| ==> u[k].id !in ids;
  }

  /** Two arrangements of the same entries: each entry of one is in the
      other, and each id of one is among the other's ids. */
  lemma SameEntries(catalogue: seq<Transformation>, p: seq<Transformation>)
    requires multiset(p) == multiset(catalogue)
    ensures forall k :: 0 <= k < |p| ==> p[k] in catalogue
    ensures forall i :: 0 <= i < |catalogue| ==> catalogue[i].id in Ids(p)
  {
    forall k | 0 <= k < |p| ensures p[k] in catalogue {
      assert p[k] in multiset(p);
    }
    forall i | 0 <= i < |catalogue| ensures catalogue[i].id in Ids(p) {
      assert catalogue[i] in multiset(p);
      var k :| 0 <= k < |p| && p[k] == catalogue[i];
      assert Ids(p)[k] == catalogue[i].id;
    }
  }

  /** The saved order is the order restored: saving any arrangement of a
      catalogue with unique ids and reading it back gives that arrangement. */
  lemma RestoreRoundTrip(catalogue: seq<Transformation>, p: seq<Transformation>)
    requires UniqueIds(catalogue) && multiset(p) == multiset(catalogue)
    ensures RestoreOrder(SavedIds(Ids(p)), catalogue) == p
  {
    SameEntries(catalogue, p);
    KnownOfMembers(catalogue, p);
    UnsavedEmpty(catalogue, Ids(p));
    assert RestoreOrder(SavedIds(Ids(p)), catalogue) == Known(catalogue, Ids(p)) + Unsaved(catalogue, Ids(p));
  }

  /** Ids of effects no longer in the catalogue are dropped, and effects added
      since the order was saved follow the saved ones. */
  lemma RestoreDropsUnknownAppendsNew(catalogue: seq<Transformation>, ids: seq<string>, t: Transformation)
    ensures forall k :: 0 <= k < |RestoreOrder(SavedIds(ids), catalogue)| ==>
      RestoreOrder(SavedIds(ids), catalogue)[k] in catalogue
    ensures t in catalogue && t.id !in ids ==>
      t in RestoreOrder(SavedIds(ids), catalogue)[|Known(catalogue, ids)|..]
  {
    if t in catalogue && t.id !in ids {
      var k :| 0 <= k < |catalogue| && catalogue[k] == t;
      assert RestoreOrder(SavedIds(ids), catalogue)[|Known(catalogue, ids)|..] == Unsaved(catalogue, ids);
    }
  }

  // ---------------------------------------------------------------------------
  // History of generated images (`bananaHistory`, newest first, at most 20)

  const HISTORY_LIMIT: nat := 20

  function Take(s: seq<string>, n: nat): (r: seq<string>)
    ensures |r| == if |s| < n then |s| else n
    ensures r == s[..|r|]
  {
    if |s| <= n then s else s[..n]
  }

  /** `history.unshift(url)` followed by `slice(0, 20)`. */
  function PushHistory(history: seq<string>, url: string): (r: seq<string>)
    ensures 1 <= |r| <= HISTORY_LIMIT && r[0] == url
    ensures |r| == if |history| < HISTORY_LIMIT then |history| + 1 else HISTORY_LIMIT
    ensures forall k :: 1 <= k < |r| ==> r[k] == history[k - 1]
  {
    Take([url] + history, HISTORY_LIMIT)
  }

  /** What the history effect finds in storage: nothing, a list, or text that
      `JSON.parse` rejects or that is not a list. */
  datatype StoredHistory = NoHistory | History(urls: seq<string>) | CorruptHistory

  /** The history effect: what is written back, if anything. */
  function SaveToHistory(hasWindow: bool, imageUrl: Option<string>, stored: StoredHistory): (r: Option<seq<string>>)
    ensures r.Some? <==> hasWindow && Present(imageUrl) && !stored.CorruptHistory?
    ensures r.Some? && stored.NoHistory? ==> r.value == [imageUrl.value]
    ensures r.Some? && stored.History? ==> r.value == PushHistory(stored.urls, imageUrl.value)
  {
    if hasWindow && Present(imageUrl) then
      match stored
      case NoHistory => Some(PushHistory([], imageUrl.value))
      case History(urls) => Some(PushHistory(urls, imageUrl.value))
      case CorruptHistory => None
    else None
  }

  function Reverse(s: seq<string>): (r: seq<string>)
    ensures |r| == |s|
  {
    if |s| == 0 then [] else Reverse(s[1..]) + [s[0]]
  }

  /** The history after saving each of `urls` in turn. */
  function PushAll(history: seq<string>, urls: seq<string>): seq<string>
    decreases |urls|
  {
    if |urls| == 0 then history else PushAll(PushHistory(history, urls[0]), urls[1..])
  }

  lemma TakeOfTake(u: seq<string>, x: seq<string>)
    ensures Take(u + Take(x, HISTORY_LIMIT), HISTORY_LIMIT) == Take(u + x, HISTORY_LIMIT)
  {
    var t := Take(x, HISTORY_LIMIT);
    var a := Take(u + t, HISTORY_LIMIT);
    var b := Take(u + x, HISTORY_LIMIT);
    assert |a| == |b|;
    forall k | 0 <= k < |a| ensures a[k] == b[k] {
      if k >= |u| {
        assert a[k] == t[k - |u|];
        assert b[k] == x[k - |u|];
      }
    }
  }

  /** However many images are saved, the history holds the most recent twenty
      of them and of what was there before, newest first. */
  lemma {:induction false} PushAllKeepsNewest(history: seq<string>, urls: seq<string>)
    requires |history| <= HISTORY_LIMIT
    ensures PushAll(history, urls) == Take(Reverse(urls) + history, HISTORY_LIMIT)
    decreases |urls|
  {
    if |urls| > 0 {
      var h := PushHistory(history, urls[0]);
      PushAllKeepsNewest(h, urls[1..]);
      assert Reverse(urls) == Reverse(urls[1..]) + [urls[0]];
      TakeOfTake(Reverse(urls[1..]), [urls[0]] + history);
      assert Reverse(urls[1..]) + ([urls[0]] + history) == Reverse(urls) + history;
    }
  }

  // ---------------------------------------------------------------------------
  // The page state `handleGenerate` and the button read

  datatype ActiveTool = MaskTool | NoTool

  datatype PageState = PageState(
    primaryImageUrl: Option<string>,
    secondaryImageUrl: Option<string>,
    selected: Option<Transformation>,
    customPrompt: string,
    maskDataUrl: Option<string>,
    activeTool: ActiveTool,
    isStellarMode: bool,
    isLoading: bool,
    error: Option<string>,
    hasResult: bool)

  const PICK_IMAGE_AND_EFFECT: string := "Please upload an image and select an effect."
  const PICK_BOTH_IMAGES: string := "Please upload both required images."
  const ENTER_PROMPT: string := "Please enter a prompt describing the change you want to see."
  const NEED_TOKEN: string := "Please provide a stellar token in the URL (?stellar=your-token)."

  /** `promptToUse`: the typed prompt for the custom effect, else the effect's. */
  function PromptToUse(t: Transformation, customPrompt: string): string {
    if t.prompt == CUSTOM_PROMPT then customPrompt else t.prompt
  }

  /** The outcome of the checks at the top of `handleGenerate`. */
  datatype Guard = Blocked(message: string) | Proceed(prompt: string)

  /** The checks, in the order the page makes them; the first that fails
      sets the error and nothing else happens. */
  function GenerateGuard(st: PageState): (r: Guard)
    ensures r == Blocked(PICK_IMAGE_AND_EFFECT) <==> !Present(st.primaryImageUrl) || st.selected.None?
    ensures r == Blocked(PICK_BOTH_IMAGES) <==>
      (Present(st.primaryImageUrl) && st.selected.Some?
      && st.selected.value.isMultiImage && !Present(st.secondaryImageUrl))
    ensures r == Blocked(ENTER_PROMPT) <==>
      (Present(st.primaryImageUrl) && st.selected.Some?
      && (st.selected.value.isMultiImage ==> Present(st.secondaryImageUrl))
      && IsBlank(PromptToUse(st.selected.value, st.customPrompt)))
    ensures r == Blocked(NEED_TOKEN) <==>
      (Present(st.primaryImageUrl) && st.selected.Some?
      && (st.selected.value.isMultiImage ==> Present(st.secondaryImageUrl))
      && !IsBlank(PromptToUse(st.selected.value, st.customPrompt))
      && !st.isStellarMode)
    ensures r.Proceed? ==> r.prompt == PromptToUse(st.selected.value, st.customPrompt)
  {
    if !Present(st.primaryImageUrl) || st.selected.None? then Blocked(PICK_IMAGE_AND_EFFECT)
    else if st.selected.value.isMultiImage && !Present(st.secondaryImageUrl) then Blocked(PICK_BOTH_IMAGES)
    else
      var prompt := PromptToUse(st.selected.value, st.customPrompt);
      if IsBlank(prompt) then Blocked(ENTER_PROMPT)
      else if !st.isStellarMode then Blocked(NEED_TOKEN)
      else Proceed(prompt)
  }

  /** `isGenerateDisabled`. */
  predicate IsGenerateDisabled(st: PageState) {
    var customEmpty := st.selected.Some? && st.selected.value.prompt == CUSTOM_PROMPT && IsBlank(st.customPrompt);
    var multi := st.selected.Some? && st.selected.value.isMultiImage;
    var singleReady := !multi && Present(st.primaryImageUrl);
    var multiReady := multi && Present(st.primaryImageUrl) && Present(st.secondaryImageUrl);
    st.isLoading || customEmpty || (!singleReady && !multiReady) || !st.isStellarMode
  }

  /** The button is disabled while a generation runs, without a token, without
      the main image, for a two-image effect without the second image, and
      for the custom effect with a blank prompt. */
  lemma DisabledWithoutInputs(st: PageState)
    ensures st.isLoading ==> IsGenerateDisabled(st)
    ensures !st.isStellarMode ==> IsGenerateDisabled(st)
    ensures !Present(st.primaryImageUrl) ==> IsGenerateDisabled(st)
    ensures st.selected.Some? && st.selected.value.isMultiImage && !Present(st.secondaryImageUrl) ==>
      IsGenerateDisabled(st)
    ensures st.selected.Some? && st.selected.value.prompt == CUSTOM_PROMPT && IsBlank(st.customPrompt) ==>
      IsGenerateDisabled(st)
  {
  }

  /** Whenever the checks would let a generation through and none is
      running, the button is enabled. */
  lemma ProceedMeansEnabled(st: PageState)
    requires GenerateGuard(st).Proceed? && !st.isLoading
    ensures !IsGenerateDisabled(st)
  {
  }

  /** The converse fails: with an image but no effect chosen, the button is
      enabled while the checks ask for an effect. */
  lemma EnabledWithoutEffect(st: PageState)
    requires Present(st.primaryImageUrl) && st.selected.None? && st.isStellarMode && !st.isLoading
    ensures !IsGenerateDisabled(st)
    ensures GenerateGuard(st) == Blocked(PICK_IMAGE_AND_EFFECT)
  {
  }

  /** `toggleMaskTool`. */
  function ToggleMaskTool(t: ActiveTool): (r: ActiveTool)
    ensures r != t
  {
    if t == MaskTool then NoTool else MaskTool
  }

  lemma ToggleTwice(t: ActiveTool)
    ensures ToggleMaskTool(ToggleMaskTool(t)) == t
  {
  }

  /** `handleSelectTransformation`: choose the effect, clear the result and
      the error, and drop the typed prompt unless the effect is the custom one. */
  function SelectTransformation(st: PageState, t: Transformation): (r: PageState)
    ensures r.selected == Some(t) && !r.hasResult && r.error.None?
    ensures r.customPrompt == (if t.prompt == CUSTOM_PROMPT then st.customPrompt else "")
    ensures r.primaryImageUrl == st.primaryImageUrl && r.secondaryImageUrl == st.secondaryImageUrl
    ensures r.maskDataUrl == st.maskDataUrl && r.isStellarMode == st.isStellarMode
  {
    var cleared := st.(selected := Some(t), hasResult := false, error := None);
    if t.prompt != CUSTOM_PROMPT then cleared.(customPrompt := "") else cleared
  }

  /** After choosing a built-in effect the prompt sent is the effect's own. */
  lemma SelectedPromptIsEffects(st: PageState, t: Transformation)
    requires t.prompt != CUSTOM_PROMPT
    ensures PromptToUse(SelectTransformation(st, t).selected.value, SelectTransformation(st, t).customPrompt) == t.prompt
  {
  }

  // ---------------------------------------------------------------------------
  // Splitting an uploaded data URL

  /** `url.split(";")[0].split(":")[1] ?? "image/png"`. */
  function MimeOf(url: string): (r: string)
    ensures ':' !in Split(url, ';')[0] ==> r == "image/png"
    ensures var head := Split(url, ';')[0];
      ':' in head ==> LeadingPiece(head[IndexOfChar(head, ':').value + 1..], ':', r)
  {
    var head := Split(url, ';')[0];
    SplitUnlessPresent(head, ':');
    SplitSecond(head, ':');
    Part(Split(head, ':'), 1).GetOr("image/png")
  }

  /** A string splits into one piece exactly when the separator is absent. */
  lemma SplitUnlessPresent(s: string, sep: char)
    ensures sep !in s <==> |Split(s, sep)| == 1
  {
    if sep in s {
      var j := IndexOfChar(s, sep).value;
      assert s == s[..j] + [sep] + s[j + 1..];
      SplitAfterFirst(s[..j], sep, s[j + 1..]);
    }
  }

  /** `url.split(",")[1]`: `undefined` when there is no comma. */
  function Base64Of(url: string): (r: Option<string>)
    ensures r.None? <==> ',' !in url
    ensures ',' in url ==> LeadingPiece(url[IndexOfChar(url, ',').value + 1..], ',', r.value)
  {
    SplitUnlessPresent(url, ',');
    SplitSecond(url, ',');
    Part(Split(url, ','), 1)
  }

  /** A well-formed data URL: a MIME type without `:`, `;` or `,`, and data
      without a comma (base64 text never has one). */
  predicate PlainMime(m: string) {
    ':' !in m && ';' !in m && ',' !in m
  }

  lemma MimeOfDataUrl(m: string, d: string)
    requires PlainMime(m)
    ensures MimeOf(DataUrl(m, d)) == m
  {
    var head := "data:" + m;
    assert DataUrl(m, d) == head + [';'] + ("base64," + d);
    SplitAfterFirst(head, ';', "base64," + d);
    assert Split(DataUrl(m, d), ';')[0] == head;
    assert head == "data" + [':'] + m;
    SplitAfterFirst("data", ':', m);
    SplitNoSeparator(m, ':');
    assert Split(head, ':') == ["data", m];
  }

  lemma Base64OfDataUrl(m: string, d: string)
    requires PlainMime(m) && ',' !in d
    ensures Base64Of(DataUrl(m, d)) == Some(d)
  {
    var head := "data:" + m + ";base64";
    assert ',' !in head;
    assert DataUrl(m, d) == head + [','] + d;
    SplitAfterFirst(head, ',', d);
    SplitNoSeparator(d, ',');
    assert Split(DataUrl(m, d), ',') == [head, d];
  }

  /** The page's split inverts the service's data-URL rendering. */
  lemma DataUrlSplitRoundTrip(m: string, d: string)
    requires PlainMime(m) && ',' !in d
    ensures MimeOf(DataUrl(m, d)) == m
    ensures Base64Of(DataUrl(m, d)) == Some(d)
  {
    MimeOfDataUrl(m, d);
    Base64OfDataUrl(m, d);
  }

  // ---------------------------------------------------------------------------
  // The single-step generation request

  /** The `editImage` arguments of a single-step effect: the primary image's
      data and type, the mask's data when a mask is drawn, and the secondary
      image for a multi-image effect. */
  function SingleStepRequest(st: PageState, prompt: string): (r: EditRequest)
    requires st.primaryImageUrl.Some? && st.selected.Some?
    ensures r.base64 == Base64Of(st.primaryImageUrl.value) && r.mimeType == MimeOf(st.primaryImageUrl.value)
    ensures r.prompt == prompt
    ensures r.mask == (if Present(st.maskDataUrl) then Base64Of(st.maskDataUrl.value) else None)
    ensures r.secondary.Some? <==> st.selected.value.isMultiImage && Present(st.secondaryImageUrl)
  {
    var secondary :=
      if st.selected.value.isMultiImage && Present(st.secondaryImageUrl)
      then Some(SecondaryImage(Base64Of(st.secondaryImageUrl.value), MimeOf(st.secondaryImageUrl.value)))
      else None;
    var mask := if Present(st.maskDataUrl) then Base64Of(st.maskDataUrl.value) else None;
    EditRequest(Base64Of(st.primaryImageUrl.value), MimeOf(st.primaryImageUrl.value), prompt, mask, secondary)
  }

  /** For a well-formed upload the service sends the uploaded data URL back
      unchanged as the request's first image, and the mask's data as a PNG. */
  lemma RequestCarriesUpload(st: PageState, m: string, d: string, prompt: string)
    requires st.primaryImageUrl == Some(DataUrl(m, d)) && st.selected.Some?
    requires PlainMime(m) && ',' !in d
    ensures BuildContent(SingleStepRequest(st, prompt))[1] == ImageUrlPart(DataUrl(m, d))
  {
    DataUrlSplitRoundTrip(m, d);
  }

  /** The token reset after a generation: clear, then store the empty string. */
  function ResetToken(b: Browser): (r: Browser)
    ensures b.hasWindow ==> Lookup(r.session, TOKEN_KEY) == Some("")
    ensures b.hasWindow && !Present(b.urlToken) ==> IsUsingStellar(r) && !Present(GetStellarToken(r).token)
  {
    SetStellarToken(ClearStellarToken(b), "")
  }

  /** Without a `stellar` URL parameter, the request after a reset makes no
      call and fails with the missing-token message. */
  lemma ResetTokenRefusesNextEdit(b: Browser, req: EditRequest, origin: string,
                                  response: FetchOutcome<ChatResponse>, parsed: Option<ErrorPayload>)
    requires b.hasWindow && !Present(b.urlToken)
    ensures var r := EditImage(req, ResetToken(b), origin, response, parsed);
      r.trace == [] && r.result == Threw(ErrorObject(NO_TOKEN))
  {
    MissingTokenNeverFetches(req, ResetToken(b), origin, response, parsed);
  }

  // ---------------------------------------------------------------------------
  // Paying to unlock generation (`handleConfirmPayment`)

  datatype PaymentType = Usdc | Xlm

  const PAYMENT_ADDRESS: string := "GC56BXCNEWL6JSGKHD3RJ5HJRNKFEJQ53D3YY3SMD6XK7YPDI75BQ7FD"
  const PAID_TOKEN: string := "scdv2o3iejwdlfjw12o3ir"
  const PAYMENT_SUCCEEDED: string := "Payment successful!"
  const PAYMENT_FAILED: string := "Failed to process payment"

  /** The amount named in the body: 0.1 for USDC, 0.25 for XLM. */
  function PaymentAmount(kind: PaymentType): string {
    if kind == Usdc then "0.1" else "0.25"
  }

  /** The body the page hands to `transfer`. */
  function PaymentBody(kind: PaymentType): (r: RequestBody)
    ensures r == BridgeBody(false, PaymentAmount(kind), PAYMENT_ADDRESS)
  {
    BridgeBody(false, PaymentAmount(kind), PAYMENT_ADDRESS)
  }

  /** The page after the payment handler: its notices, the browser, the
      token and mode cells, the dialog and processing flags, and the run of
      `transfer`. */
  datatype Paid = Paid(
    notices: seq<Notice>,
    browser: Browser,
    stellarToken: Option<string>,
    isStellarMode: bool,
    isProcessing: bool,
    showConfirmDialog: bool,
    run: TransferFlow.Run)

  function ConfirmPayment(kind: PaymentType, session: Session, provider: ProviderState, serverAvailable: bool,
                          script: TransferFlow.Script, b: Browser, stellarToken: Option<string>,
                          isStellarMode: bool): (r: Paid)
    ensures r.run == Transfer(session, provider, serverAvailable, PaymentBody(kind), script)
    ensures !r.isProcessing && !r.showConfirmDialog
    ensures r.run.result.Returned? ==>
      r.notices == [SuccessToast(PAYMENT_SUCCEEDED)] && r.stellarToken == Some(PAID_TOKEN)
      && r.isStellarMode && r.browser == SetStellarToken(b, PAID_TOKEN)
    ensures r.run.result.Threw? ==>
      r.notices == [ErrorToast(InstanceMessage(r.run.result.error, PAYMENT_FAILED))]
      && r.browser == b && r.stellarToken == stellarToken && r.isStellarMode == isStellarMode
  {
    var run := Transfer(session, provider, serverAvailable, PaymentBody(kind), script);
    match run.result
    case Returned(_) =>
      Paid([SuccessToast(PAYMENT_SUCCEEDED)], SetStellarToken(b, PAID_TOKEN), Some(PAID_TOKEN), true, false, false, run)
    case Threw(e) =>
      Paid([ErrorToast(InstanceMessage(e, PAYMENT_FAILED))], b, stellarToken, isStellarMode, false, false, run)
  }

  /** A successful payment leaves a token the service finds, and generation
      is no longer blocked for want of one. */
  lemma PaymentUnlocksGeneration(kind: PaymentType, session: Session, provider: ProviderState, serverAvailable: bool,
                                 script: TransferFlow.Script, b: Browser, stellarToken: Option<string>,
                                 isStellarMode: bool, st: PageState)
    requires b.hasWindow && !Present(b.urlToken)
    requires Transfer(session, provider, serverAvailable, PaymentBody(kind), script).result.Returned?
    ensures var r := ConfirmPayment(kind, session, provider, serverAvailable, script, b, stellarToken, isStellarMode);
      GetStellarToken(r.browser).token == Some(PAID_TOKEN)
      && GenerateGuard(st.(isStellarMode := r.isStellarMode)) != Blocked(NEED_TOKEN)
  {
    SetThenGet(b, PAID_TOKEN);
  }

  /** The payment type changes only the amount written in the request body:
      the on-chain payment, the steps and the outcome are those of the intent
      the route returns, whichever type was chosen. */
  lemma PaymentTypeOnlyNamesAmount(session: Session, provider: ProviderState, serverAvailable: bool,
                                   script: TransferFlow.Script)
    ensures var u := Transfer(session, provider, serverAvailable, PaymentBody(Usdc), script);
      var x := Transfer(session, provider, serverAvailable, PaymentBody(Xlm), script);
      u.result == x.result && u.steps == x.steps && |u.trace| == |x.trace|
      && (|u.trace| > 0 ==> u.trace[1..] == x.trace[1..])
  {
    PayloadOnlyInRequest(session, provider, serverAvailable, PaymentBody(Usdc), PaymentBody(Xlm), script);
  }
}
