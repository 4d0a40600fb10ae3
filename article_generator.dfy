/** src/pages/ArticleGenerator.tsx: input gating, the token guard in front of the
    request, the `<think>` stripper applied to the generated text, the
    classification of failures, and the download file name. */
module ArticleGenerator {
  import opened Common
  import opened Api
  import Text

  // ---------------------------------------------------------------------------
  // Stripping `<think>…</think>` blocks
  // ---------------------------------------------------------------------------

  const OpenTag := "<think>"
  const CloseTag := "</think>"

  /** `tag` (written in lower case) occurs at position `i` of `s`, ignoring case.
      The regular expression has the `i` flag but not `u`, so only ASCII letters
      fold. */
  predicate TagAt(s: string, i: int, tag: string)
  {
    0 <= i && i + |tag| <= |s| && Text.Lower(s[i..i + |tag|]) == tag
  }

  /** The earliest closing tag that starts at or after `from`. */
  function FindClose(s: string, from: nat): (r: Option<nat>)
    ensures r.Some? ==> from <= r.value && TagAt(s, r.value, CloseTag)
    ensures r.Some? ==> forall j :: from <= j < r.value ==> !TagAt(s, j, CloseTag)
    ensures r.None? ==> forall j :: from <= j ==> !TagAt(s, j, CloseTag)
    decreases |s| - from
  {
    if from + |CloseTag| > |s| then None
    else if TagAt(s, from, CloseTag) then Some(from)
    else FindClose(s, from + 1)
  }

  /** `raw.replace(/<think>[\s\S]*?<\/think>/gi, '')`. The scan goes left to right:
      where an opening tag has a closing tag somewhere after it, everything up to
      and including the first such closing tag is dropped and the scan resumes
      behind it; any other character is kept. */
  function StripThink(s: string): (r: string)
    ensures |r| <= |s|
    decreases |s|
  {
    if |s| == 0 then ""
    else if BlockAtStart(s) then StripThink(s[BlockEnd(s)..])
    else [s[0]] + StripThink(s[1..])
  }

  /** The text starts with an opening tag that some later closing tag matches. */
  predicate BlockAtStart(s: string)
  {
    TagAt(s, 0, OpenTag) && FindClose(s, |OpenTag|).Some?
  }

  /** Where the block at the start of `s` ends: just behind the first closing tag. */
  function BlockEnd(s: string): (e: nat)
    requires BlockAtStart(s)
    ensures |OpenTag| + |CloseTag| <= e <= |s|
    ensures TagAt(s, e - |CloseTag|, CloseTag)
  {
    FindClose(s, |OpenTag|).value + |CloseTag|
  }

  /** Tags found in a suffix are the tags found in the whole string, shifted. */
  lemma TagAtDrop(s: string, d: nat, j: int, tag: string)
    requires d <= |s| && 0 <= j
    ensures TagAt(s[d..], j, tag) <==> TagAt(s, j + d, tag)
  {
    if 0 <= j && j + |tag| <= |s| - d {
      assert s[d..][j..j + |tag|] == s[j + d..j + d + |tag|];
    }
  }

  lemma NoCloseInSuffix(s: string, d: nat)
    requires d <= |s|
    requires forall j :: 0 <= j ==> !TagAt(s, j, CloseTag)
    ensures forall j :: 0 <= j ==> !TagAt(s[d..], j, CloseTag)
  {
    forall j | 0 <= j ensures !TagAt(s[d..], j, CloseTag) {
      TagAtDrop(s, d, j, CloseTag);
    }
  }

  lemma NoOpenInSuffix(s: string, d: nat)
    requires d <= |s|
    requires forall j :: 0 <= j ==> !TagAt(s, j, OpenTag)
    ensures forall j :: 0 <= j ==> !TagAt(s[d..], j, OpenTag)
  {
    forall j | 0 <= j ensures !TagAt(s[d..], j, OpenTag) {
      TagAtDrop(s, d, j, OpenTag);
    }
  }

  /** Text without an opening tag, in any letter case, is returned unchanged. */
  lemma {:induction false} NoOpenUnchanged(s: string)
    requires forall j :: 0 <= j ==> !TagAt(s, j, OpenTag)
    ensures StripThink(s) == s
    decreases |s|
  {
    if |s| > 0 {
      NoOpenInSuffix(s, 1);
      NoOpenUnchanged(s[1..]);
      assert [s[0]] + s[1..] == s;
    }
  }

  /** Text without a closing tag is returned unchanged: an opening tag that is
      never closed removes nothing. */
  lemma {:induction false} NoCloseUnchanged(s: string)
    requires forall j :: 0 <= j ==> !TagAt(s, j, CloseTag)
    ensures StripThink(s) == s
    decreases |s|
  {
    if |s| > 0 {
      assert FindClose(s, |OpenTag|).None?;
      NoCloseInSuffix(s, 1);
      NoCloseUnchanged(s[1..]);
      assert [s[0]] + s[1..] == s;
    }
  }

  lemma OpenTagStartsOnlyOnce()
    ensures forall m :: 1 <= m < |OpenTag| ==> OpenTag[m] != '<'
  {
    forall m | 1 <= m < |OpenTag| ensures OpenTag[m] != '<' {
      assert m == 1 || m == 2 || m == 3 || m == 4 || m == 5 || m == 6;
    }
  }

  lemma CloseTagStartsOnlyOnce()
    ensures forall m :: 1 <= m < |CloseTag| ==> CloseTag[m] != '<'
  {
    forall m | 1 <= m < |CloseTag| ensures CloseTag[m] != '<' {
      assert m == 1 || m == 2 || m == 3 || m == 4 || m == 5 || m == 6 || m == 7;
    }
  }

  /** The characters of a tag found at position `i`, after case folding. */
  lemma TagChars(s: string, i: int, tag: string, m: int)
    requires TagAt(s, i, tag) && 0 <= m < |tag|
    ensures Text.LowerChar(s[i + m]) == tag[m]
  {
    assert Text.Lower(s[i..i + |tag|])[m] == Text.LowerChar(s[i + m]);
  }

  /** A closing tag cannot overlap an opening tag, nor start inside it. */
  lemma CloseApartFromOpen(s: string, i: int, c: int)
    requires TagAt(s, i, OpenTag) && TagAt(s, c, CloseTag)
    ensures c + |CloseTag| <= i || i + |OpenTag| <= c
  {
    OpenTagStartsOnlyOnce();
    CloseTagStartsOnlyOnce();
    TagChars(s, i, OpenTag, 0);
    TagChars(s, c, CloseTag, 0);
    TagChars(s, i, OpenTag, 1);
    TagChars(s, c, CloseTag, 1);
    if c < i < c + |CloseTag| {
      TagChars(s, c, CloseTag, i - c);
    }
    if i < c < i + |OpenTag| {
      TagChars(s, i, OpenTag, c - i);
    }
  }

  /** No closing tag starts at or after `from`. */
  ghost predicate NoCloseFrom(s: string, from: int)
  {
    forall j :: from <= j ==> !TagAt(s, j, CloseTag)
  }

  lemma NoCloseFromDrop(s: string, d: nat, from: int)
    requires d <= |s| && d <= from
    requires NoCloseFrom(s, from)
    ensures NoCloseFrom(s[d..], from - d)
  {
    forall j | from - d <= j ensures !TagAt(s[d..], j, CloseTag) {
      TagAtDrop(s, d, j, CloseTag);
    }
  }

  /** An opening tag at the very start with no closing tag anywhere after it: the
      whole text is kept. */
  lemma UnclosedAtStart(s: string)
    requires TagAt(s, 0, OpenTag) && NoCloseFrom(s, |OpenTag|)
    ensures StripThink(s) == s
  {
    forall j | 0 <= j ensures !TagAt(s[1..], j, CloseTag) {
      TagAtDrop(s, 1, j, CloseTag);
      if TagAt(s, j + 1, CloseTag) {
        CloseApartFromOpen(s, 0, j + 1);
      }
    }
    NoCloseUnchanged(s[1..]);
    assert FindClose(s, |OpenTag|).None?;
    assert [s[0]] + s[1..] == s;
  }

  /** An opening tag with no closing tag after it is kept, together with
      everything that follows it: the output ends with `s[i..]`. */
  lemma {:induction false} UnclosedKept(s: string, i: nat)
    requires TagAt(s, i, OpenTag) && NoCloseFrom(s, i + |OpenTag|)
    ensures Text.EndsWith(StripThink(s), s[i..])
    decreases |s|
  {
    if i == 0 {
      UnclosedAtStart(s);
      assert s[0..] == s;
    } else if BlockAtStart(s) {
      var e := BlockEnd(s);
      CloseApartFromOpen(s, i, e - |CloseTag|);
      UnclosedKeptAfter(s, i, e);
    } else {
      UnclosedKeptAfter(s, i, 1);
      Text.EndsWithPrepend([s[0]], StripThink(s[1..]), s[i..]);
    }
  }

  /** The induction step of `UnclosedKept`: the scan resumes at `e`, still in
      front of the unclosed tag. */
  lemma {:induction false} UnclosedKeptAfter(s: string, i: nat, e: nat)
    requires TagAt(s, i, OpenTag) && NoCloseFrom(s, i + |OpenTag|)
    requires 0 < e <= i
    ensures Text.EndsWith(StripThink(s[e..]), s[i..])
    decreases |s|, 0
  {
    TagAtDrop(s, e, i - e, OpenTag);
    NoCloseFromDrop(s, e, i + |OpenTag|);
    UnclosedKept(s[e..], i - e);
    assert s[e..][i - e..] == s[i..];
  }

  /** An opening tag starts with `<`, in any letter case. */
  lemma OpenTagFirstChar(s: string)
    requires |s| > 0
    ensures TagAt(s, 0, OpenTag) ==> Text.LowerChar(s[0]) == '<'
  {
    if TagAt(s, 0, OpenTag) {
      TagChars(s, 0, OpenTag, 0);
    }
  }

  /** Text before the first `<` is copied through untouched. */
  lemma {:induction false} PlainPrefixKept(p: string, s: string)
    requires '<' !in p
    ensures StripThink(p + s) == p + StripThink(s)
    decreases |p|
  {
    if |p| == 0 {
      assert p + s == s;
    } else {
      var t := p + s;
      assert t[0] == p[0];
      OpenTagFirstChar(t);
      assert t[1..] == p[1..] + s;
      PlainPrefixKept(p[1..], s);
      assert [p[0]] + (p[1..] + StripThink(s)) == p + StripThink(s);
    }
  }

  /** The examples of the stripper at work: a block is removed in any letter case. */
  lemma StripThinkExamples()
    ensures StripThink("<think>a</think>b") == "b"
    ensures StripThink("<THINK>a</Think>b") == "b"
  {
    var s := "<think>a</think>b";
    assert TagAt(s, 0, OpenTag);
    assert Text.Lower(s[7..15])[0] == 'a';
    assert TagAt(s, 8, CloseTag);
    assert FindClose(s, 8) == Some(8);
    assert FindClose(s, 7) == Some(8);
    assert s[16..] == "b";
    assert StripThink("b") == "b";
    var u := "<THINK>a</Think>b";
    assert TagAt(u, 0, OpenTag);
    assert Text.Lower(u[7..15])[0] == 'a';
    assert TagAt(u, 8, CloseTag);
    assert FindClose(u, 8) == Some(8);
    assert FindClose(u, 7) == Some(8);
    assert u[16..] == "b";
  }

  // ---------------------------------------------------------------------------
  // The download file name
  // ---------------------------------------------------------------------------

  /** `s.replace(/\s+/g, '-')`: every maximal run of white space becomes one dash. */
  function DashRuns(s: string): (r: string)
    ensures Text.NoSpace(r)
    ensures |r| <= |s|
    decreases |s|
  {
    if |s| == 0 then ""
    else if Text.IsSpace(s[0]) then "-" + DashRuns(Text.TrimStart(s[1..]))
    else [s[0]] + DashRuns(s[1..])
  }

  /** Text without white space is copied as it is. */
  lemma {:induction false} DashRunsWord(x: string, s: string)
    requires Text.NoSpace(x)
    ensures DashRuns(x + s) == x + DashRuns(s)
    decreases |x|
  {
    if |x| == 0 {
      assert x + s == s;
    } else {
      assert (x + s)[1..] == x[1..] + s;
      DashRunsWord(x[1..], s);
      assert [x[0]] + (x[1..] + DashRuns(s)) == x + DashRuns(s);
    }
  }

  /** A whole run of white space, however long, becomes a single dash. */
  lemma DashRunsRun(w: string, s: string)
    requires |w| > 0 && Text.AllSpace(w)
    requires s == [] || !Text.IsSpace(s[0])
    ensures DashRuns(w + s) == "-" + DashRuns(s)
  {
    assert (w + s)[1..] == w[1..] + s;
    Text.TrimStartRun(w[1..], s);
  }

  /** The name the "Download" button gives the article:
      `${title.toLowerCase().replace(/\s+/g, '-')}.txt`. */
  function DownloadFilename(title: string): (r: string)
    ensures Text.NoSpace(r)
    ensures Text.EndsWith(r, ".txt")
    ensures |r| <= |title| + 4
  {
    var slug := DashRuns(Text.Lower(title));
    assert (slug + ".txt")[|slug|..] == ".txt";
    slug + ".txt"
  }

  /** A title without white space is only lower-cased. */
  lemma FilenameOfOneWord(title: string)
    requires Text.NoSpace(title)
    ensures DownloadFilename(title) == Text.Lower(title) + ".txt"
  {
    var lower := Text.Lower(title);
    DashRunsWord(lower, "");
    assert lower + "" == lower;
  }

  // ---------------------------------------------------------------------------
  // Requests, responses and failures
  // ---------------------------------------------------------------------------

  const SignInPath := "/signin"
  const NoTokenMessage := "No token found"
  const FallbackError := "Failed to generate article."
  const EmptyTitleMessage := "Please enter a title"
  const SessionExpiredMessage := "Session expired. Redirecting to sign in\U{2026}"
  const FixErrorsMessage := "Please fix the errors and try again."

  datatype ArticleLength = Short | Medium | Long
  {
    /** The value the select box stores and the request carries. */
    function Name(): string
    {
      match this
      case Short => "short"
      case Medium => "medium"
      case Long => "long"
    }
  }

  /** What `handleGenerate` passes to the mutation. */
  datatype ArticlePayload = ArticlePayload(title: string, length: ArticleLength)

  /** The response body: `{ data: { article } }`, either level possibly missing. */
  datatype ArticleData = ArticleData(article: Option<string>)
  datatype ArticleResponse = ArticleResponse(data: Option<ArticleData>)

  /** `data?.data?.article`. */
  function RawArticle(resp: ArticleResponse): Option<string>
  {
    if resp.data.Some? then resp.data.value.article else None
  }

  /** The article shown after a success: `data?.data?.article || ''` with the
      think blocks removed. */
  function ArticleText(resp: ArticleResponse): (r: string)
    ensures !Truthy(RawArticle(resp)) ==> r == ""
    ensures Truthy(RawArticle(resp)) ==> |r| <= |RawArticle(resp).value|
  {
    StripThink(FirstTruthy([RawArticle(resp)]))
  }

  /** `error?.response?.status`. */
  function Status(e: ApiError): Option<int>
  {
    if e.response.Some? then Some(e.response.value.status) else None
  }

  /** `error?.response?.data`. */
  function ResponseData(e: ApiError): Option<ErrorData>
  {
    if e.response.Some? then e.response.value.data else None
  }

  /** `resData?.details?.fieldErrors`. */
  function FieldErrors(e: ApiError): Option<map<string, seq<string>>>
  {
    var d := ResponseData(e);
    if d.Some? && d.value.details.Some? then d.value.details.value.fieldErrors else None
  }

  /** `resData?.error`. */
  function ServerError(e: ApiError): Option<string>
  {
    var d := ResponseData(e);
    if d.Some? then d.value.error else None
  }

  /** How `onError` reacts to a failure. */
  datatype ErrorAction =
    | RedirectToSignIn(from: Location)
    | ShowFieldErrors(errors: map<string, seq<string>>)
    | ShowMessage(text: string)

  /** Status 401 is checked first and sends the user to sign in; a 400 that carries
      a field-error map shows it; every other failure, a 400 without the map
      included, shows the server's `error` text or a fixed fallback, so the
      message is never empty. */
  function ClassifyError(e: ApiError, location: Location): (r: ErrorAction)
    ensures r.RedirectToSignIn? <==> Status(e) == Some(401)
    ensures r.RedirectToSignIn? ==> r.from == location
    ensures r.ShowFieldErrors? <==> Status(e) == Some(400) && FieldErrors(e).Some?
    ensures r.ShowFieldErrors? ==> r.errors == FieldErrors(e).value
    ensures r.ShowMessage? ==> r.text != ""
    ensures r.ShowMessage? && Truthy(ServerError(e)) ==> r.text == ServerError(e).value
    ensures r.ShowMessage? && !Truthy(ServerError(e)) ==> r.text == FallbackError
  {
    if Status(e) == Some(401) then RedirectToSignIn(location)
    else if Status(e) == Some(400) && FieldErrors(e).Some? then ShowFieldErrors(FieldErrors(e).value)
    else
      var candidates := [ServerError(e), Some(FallbackError)];
      assert Truthy(candidates[1]);
      ShowMessage(FirstTruthy(candidates))
  }

  /** The toast `onError` shows with each reaction. */
  function ErrorToast(a: ErrorAction): (r: string)
    ensures a.ShowMessage? ==> r == a.text
    ensures a.RedirectToSignIn? ==> r == SessionExpiredMessage
    ensures a.ShowFieldErrors? ==> r == FixErrorsMessage
  {
    match a
    case RedirectToSignIn(_) => SessionExpiredMessage
    case ShowFieldErrors(_) => FixErrorsMessage
    case ShowMessage(text) => text
  }

  /** Every failure the page classifies shows a non-empty toast. */
  lemma ErrorToastNeverEmpty(e: ApiError, location: Location)
    ensures ErrorToast(ClassifyError(e, location)) != ""
  {
  }

  /** The paragraph under the title field. Any `title` list is truthy, an empty one
      too, so the paragraph is there whenever the key is; it holds the first
      entry, and nothing when the list is empty. */
  function TitleError(fieldErrors: map<string, seq<string>>): (r: Option<string>)
    ensures r.Some? <==> "title" in fieldErrors
    ensures r.Some? && |fieldErrors["title"]| > 0 ==> r.value == fieldErrors["title"][0]
    ensures r.Some? && |fieldErrors["title"]| == 0 ==> r.value == ""
  {
    if "title" !in fieldErrors then None
    else if |fieldErrors["title"]| > 0 then Some(fieldErrors["title"][0])
    else Some("")
  }

  /** After a 400 whose field map has title errors, the field shows the first. */
  lemma RejectedTitleShown(e: ApiError, location: Location)
    requires Status(e) == Some(400) && FieldErrors(e).Some?
    requires "title" in FieldErrors(e).value && |FieldErrors(e).value["title"]| > 0
    ensures ClassifyError(e, location).ShowFieldErrors?
    ensures TitleError(ClassifyError(e, location).errors) == Some(FieldErrors(e).value["title"][0])
  {
  }

  /** What the page renders before its form: a loader until the identity provider
      is ready, then a navigation to the sign-in page for a signed-out user. */
  datatype PageView = LoadingScreen | NavigateToSignIn(from: Location) | Form

  function Gate(isLoaded: bool, isSignedIn: bool, location: Location): (r: PageView)
    ensures r.LoadingScreen? <==> !isLoaded
    ensures r.NavigateToSignIn? <==> isLoaded && !isSignedIn
    ensures r.NavigateToSignIn? ==> r.from == location
  {
    if !isLoaded then LoadingScreen
    else if !isSignedIn then NavigateToSignIn(location)
    else Form
  }

  /** `mutationFn`: a fresh token is requested first; without one the call fails
      before any header is written or any request is sent. With one, it is written
      into the shared header map and the request carries it. */
  method MutationFn(client: Client, payload: ArticlePayload, token: TokenResult, server: Outcome<ArticleResponse>)
    returns (result: Outcome<ArticleResponse>, sent: Option<Request>)
    modifies client
    ensures token.Threw? ==> result == Err(ApiError(token.message, None))
    ensures token.Issued? && !Truthy(token.token) ==> result == Err(ApiError(NoTokenMessage, None))
    ensures !(token.Issued? && Truthy(token.token)) ==> sent.None? && client.common == old(client.common)
    ensures token.Issued? && Truthy(token.token) ==>
              && client.common == WithAuthToken(old(client.common), token.token.value)
              && sent.Some?
              && sent.value.verb == Post && sent.value.path == "/article"
              && sent.value.body == ArticleBody(payload.title, payload.length.Name())
              && AuthorizationKey in sent.value.headers
              && sent.value.headers[AuthorizationKey] == "Bearer " + token.token.value
              && result == Intercept(server)
  {
    match token
    case Threw(message) =>
      result, sent := Err(ApiError(message, None)), None;
    case Issued(t) =>
      if !Truthy(t) {
        result, sent := Err(ApiError(NoTokenMessage, None)), None;
        return;
      }
      client.SetAuthToken(t.value);
      var req := client.Send(Post, "/article", ArticleBody(payload.title, payload.length.Name()), map[], None);
      sent := Some(req);
      result := Intercept(server);
  }

  // ---------------------------------------------------------------------------
  // The page's state
  // ---------------------------------------------------------------------------

  class ArticlePage {
    var title: string
    var length: ArticleLength
    var generatedArticle: string
    var isThinking: bool
    var fieldErrors: map<string, seq<string>>
    /** The sign-in navigation a 401 schedules, with the location to return to. */
    var pendingRedirect: Option<Location>

    constructor ()
      ensures title == "" && length == Medium && generatedArticle == ""
      ensures !isThinking && fieldErrors == map[] && pendingRedirect == None
    {
      title, length, generatedArticle := "", Medium, "";
      isThinking, fieldErrors, pendingRedirect := false, map[], None;
    }

    /** The "Generate Article" button is disabled while a request is pending or
        while the title is empty or white space only. */
    function GenerateDisabled(isPending: bool): (r: bool)
      reads this
      ensures r <==> isPending || Text.AllSpace(title)
    {
      Text.BlankIffAllSpace(title);
      isPending || Text.IsBlank(title)
    }

    /** `handleGenerate`: the previous article and field errors are cleared; a blank
        title stops there with `isThinking` false, any other title is trimmed and
        handed to the mutation with the chosen length. */
    method HandleGenerate() returns (payload: Option<ArticlePayload>, toast: Option<string>)
      modifies this
      ensures title == old(title) && length == old(length) && pendingRedirect == old(pendingRedirect)
      ensures generatedArticle == "" && fieldErrors == map[]
      ensures payload.None? <==> Text.AllSpace(title)
      ensures payload.Some? ==> payload.value == ArticlePayload(Text.Trim(title), length)
      ensures isThinking <==> payload.Some?
      ensures toast.Some? <==> payload.None?
      ensures toast.Some? ==> toast.value == EmptyTitleMessage
    {
      var t := title;
      Text.BlankIffAllSpace(t);
      generatedArticle, fieldErrors := "", map[];
      if Text.IsBlank(t) {
        isThinking := false;
        payload, toast := None, Some(EmptyTitleMessage);
      } else {
        isThinking := true;
        payload, toast := Some(ArticlePayload(Text.Trim(t), length)), None;
      }
    }

    /** `onSuccess`. */
    method OnSuccess(resp: ArticleResponse)
      modifies this
      ensures fieldErrors == map[] && !isThinking
      ensures generatedArticle == ArticleText(resp)
      ensures title == old(title) && length == old(length) && pendingRedirect == old(pendingRedirect)
    {
      fieldErrors := map[];
      isThinking := false;
      generatedArticle := ArticleText(resp);
    }

    /** `onError`: always stops the thinking indicator; only a 400 with a field map
        writes `fieldErrors`, and only a 401 schedules the sign-in navigation. */
    method OnError(e: ApiError, location: Location) returns (action: ErrorAction, toast: string)
      modifies this
      ensures action == ClassifyError(e, location)
      ensures toast == ErrorToast(action)
      ensures !isThinking
      ensures fieldErrors == if action.ShowFieldErrors? then action.errors else old(fieldErrors)
      ensures pendingRedirect == if action.RedirectToSignIn? then Some(location) else old(pendingRedirect)
      ensures title == old(title) && length == old(length) && generatedArticle == old(generatedArticle)
    {
      isThinking := false;
      var status := Status(e);
      if status == Some(401) {
        pendingRedirect := Some(location);
        return RedirectToSignIn(location), SessionExpiredMessage;
      }
      var errors := FieldErrors(e);
      if status == Some(400) && errors.Some? {
        fieldErrors := errors.value;
        return ShowFieldErrors(errors.value), FixErrorsMessage;
      }
      action := ShowMessage(FirstTruthy([ServerError(e), Some(FallbackError)]));
      toast := action.text;
    }
  }

  /** One press of "Generate Article" carried through: `handleGenerate`, then, if it
      handed a payload to the mutation, `mutationFn` and whichever of `onSuccess`
      and `onError` follows. `token` is what the identity provider returns and
      `server` how the request settles. */
  method Generate(page: ArticlePage, client: Client, token: TokenResult,
                  server: Outcome<ArticleResponse>, location: Location)
    returns (sent: Option<Request>)
    modifies page, client
    ensures !page.isThinking
    ensures Text.AllSpace(old(page.title)) ==>
              && sent.None? && client.common == old(client.common)
              && page.generatedArticle == "" && page.fieldErrors == map[]
    ensures !Text.AllSpace(old(page.title)) && token.Issued? && Truthy(token.token) ==> sent.Some?
    ensures sent.Some? ==> sent.value.body == ArticleBody(Text.Trim(old(page.title)), old(page.length).Name())
    ensures sent.Some? && server.Ok? ==> page.generatedArticle == ArticleText(server.data) && page.fieldErrors == map[]
    ensures sent.Some? && server.Err? && Status(server.error) == Some(401) ==> page.fieldErrors == map[]
  {
    var payload, _ := page.HandleGenerate();
    if payload.None? {
      return None;
    }
    var result;
    result, sent := MutationFn(client, payload.value, token, server);
    match result
    case Ok(data) =>
      page.OnSuccess(data);
    case Err(e) =>
      var _, _ := page.OnError(e, location);
  }
}
