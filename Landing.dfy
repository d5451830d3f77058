/**
 * The landing page's scan form: the URL the visitor typed is trimmed and given
 * an `https://` scheme unless it already has an http(s) one, a scan is started
 * for it, and the form's `error` and `loading` fields follow the request.
 */
module Landing {

  import opened Outcomes
  import opened JsText

  predicate StartsWith(s: string, prefix: string) {
    |prefix| <= |s| && s[..|prefix|] == prefix
  }

  /** The literal, case-sensitive scheme test of the handler. */
  predicate HasHttpScheme(s: string) {
    StartsWith(s, "http://") || StartsWith(s, "https://")
  }

  /**
   * The URL sent to start a scan: the trimmed input, unchanged when it starts
   * with `http://` or `https://`, otherwise with `https://` in front.
   */
  function NormalizeUrl(input: string): (url: string)
    ensures HasHttpScheme(url)
    ensures HasHttpScheme(Trim(input)) ==> url == Trim(input)
    ensures !HasHttpScheme(Trim(input)) ==> url == "https://" + Trim(input)
  {
    var scanUrl := Trim(input);
    if !StartsWith(scanUrl, "http://") && !StartsWith(scanUrl, "https://") then
      assert StartsWith("https://" + scanUrl, "https://");
      "https://" + scanUrl
    else
      scanUrl
  }

  /** A normalised URL has no white space at either end. */
  lemma NormalizedIsTrimmed(input: string)
    ensures IsTrimmed(NormalizeUrl(input))
  {
    var t := Trim(input);
    var url := NormalizeUrl(input);
    assert url[0] == 'h';
    if url != t {
      assert url == "https://" + t;
      assert url[|url| - 1] == if t == [] then '/' else t[|t| - 1];
    }
  }

  /** Normalising an already normalised URL returns it unchanged. */
  lemma NormalizeIdempotent(input: string)
    ensures NormalizeUrl(NormalizeUrl(input)) == NormalizeUrl(input)
  {
    NormalizedIsTrimmed(input);
    TrimKeepsTrimmed(NormalizeUrl(input));
  }

  /** White space around what was typed does not change the URL sent. */
  lemma NormalizeIgnoresPadding(before: string, input: string, after: string)
    requires AllWhitespace(before) && AllWhitespace(after)
    ensures NormalizeUrl(before + input + after) == NormalizeUrl(input)
  {
    TrimIgnoresPadding(before, input, after);
  }

  /** Input that is already trimmed and has no http(s) scheme just gets `https://` in front. */
  lemma NormalizeTrimmedWithoutScheme(t: string)
    requires IsTrimmed(t) && !HasHttpScheme(t)
    ensures NormalizeUrl(t) == "https://" + t
  {
    TrimKeepsTrimmed(t);
  }

  /** A string that starts with a capital H has no http(s) scheme. */
  lemma CapitalHIsNoScheme(t: string)
    requires |t| > 0 && t[0] == 'H'
    ensures !HasHttpScheme(t)
  {
    assert |t| >= 7 ==> t[..7][0] == 'H';
    assert |t| >= 8 ==> t[..8][0] == 'H';
  }

  /**
   * The scheme test is case-sensitive: `HTTPS://` (or any other spelling of the
   * scheme that is not lower case) is not recognised and gets `https://` in front.
   */
  lemma NormalizeIsCaseSensitive(host: string)
    requires IsTrimmed(host)
    ensures NormalizeUrl("HTTPS://" + host) == "https://HTTPS://" + host
  {
    var t := "HTTPS://" + host;
    assert t[0] == 'H';
    assert t[|t| - 1] == if host == [] then '/' else host[|host| - 1];
    CapitalHIsNoScheme(t);
    NormalizeTrimmedWithoutScheme(t);
    assert "https://" + t == ("https://" + "HTTPS://") + host;
  }

  /** A host typed with white space around it is trimmed and given `https://`. */
  lemma NormalizeBareHost(before: string, host: string, after: string)
    requires AllWhitespace(before) && AllWhitespace(after)
    requires IsTrimmed(host) && !HasHttpScheme(host)
    ensures NormalizeUrl(before + host + after) == "https://" + host
  {
    NormalizeIgnoresPadding(before, host, after);
    NormalizeTrimmedWithoutScheme(host);
  }

  /** An empty input becomes the bare scheme. */
  lemma NormalizeEmpty()
    ensures NormalizeUrl("") == "https://"
  {
    TrimKeepsTrimmed("");
  }

  /** How the request to start a scan ended. */
  datatype ScanStart = Started(scanId: string) | Threw(err: Thrown)

  const ScanErrorFallback: string := "Something went wrong"

  /** The path the router is sent to once a scan has been created. */
  function ScanPath(scanId: string): (path: string)
    ensures StartsWith(path, "/scan/") && path[|"/scan/"|..] == scanId
  {
    "/scan/" + scanId
  }

  /**
   * The landing page's form state. `pending` counts scan requests that were
   * sent and have not yet come back; `navigation` is the last path pushed to
   * the router.
   */
  class ScanForm {
    var url: string
    var loading: bool
    var error: string
    var navigation: Option<string>
    ghost var pending: nat

    /** At most one request in flight, and only while loading; after navigation the form stays loading with nothing in flight. */
    ghost predicate Valid()
      reads this
    {
      && pending <= 1
      && (pending == 1 ==> loading)
      && (navigation.Some? ==> loading && pending == 0)
    }

    constructor ()
      ensures Valid()
      ensures url == "" && !loading && error == "" && navigation == None && pending == 0
    {
      url, loading, error, navigation := "", false, "", None;
      pending := 0;
    }

    /** The URL input's `onChange`: the field holds what was typed. */
    method Type(value: string)
      requires Valid()
      modifies this`url
      ensures Valid() && url == value
    {
      url := value;
    }

    /**
     * Submitting the form. The browser submits only when its own validation of
     * the required URL input passes (`formValid`) and the submit button is not
     * disabled, which it is while `loading`. When it does, `handleScan` clears
     * the error, starts loading and sends the normalised URL.
     */
    method Submit(formValid: bool) returns (sent: Option<string>)
      requires Valid()
      modifies this`error, this`loading, this`pending
      ensures Valid()
      ensures sent.Some? <==> formValid && !old(loading)
      ensures sent.Some? ==> sent.value == NormalizeUrl(url) && HasHttpScheme(sent.value)
      ensures sent.Some? ==> error == "" && loading && pending == 1
      ensures sent.None? ==> error == old(error) && loading == old(loading) && pending == old(pending)
    {
      if !formValid || loading {
        return None;
      }
      error := "";
      loading := true;
      pending := pending + 1;
      var scanUrl := NormalizeUrl(url);
      sent := Some(scanUrl);
    }

    /**
     * The request comes back. On success the router goes to the scan's page
     * and the form stays loading; on failure the error's message (or a
     * generic one for a value that is not an `Error`) is shown and loading ends.
     */
    method CompleteScan(outcome: ScanStart)
      requires Valid() && pending == 1
      modifies this`error, this`loading, this`navigation, this`pending
      ensures Valid() && pending == 0
      ensures outcome.Started? ==> navigation == Some(ScanPath(outcome.scanId)) && loading && error == old(error)
      ensures outcome.Threw? ==> error == ErrorText(outcome.err, ScanErrorFallback) && !loading && navigation == old(navigation)
    {
      pending := pending - 1;
      match outcome
      case Started(scanId) =>
        navigation := Some(ScanPath(scanId));
      case Threw(err) =>
        error := ErrorText(err, ScanErrorFallback);
        loading := false;
    }
  }

  /** After a successful start the form stays disabled: no second scan can be submitted. */
  method NoResubmitAfterNavigation(typed: string, scanId: string) returns (form: ScanForm, first: Option<string>, second: Option<string>)
    ensures first == Some(NormalizeUrl(typed))
    ensures form.navigation == Some("/scan/" + scanId) && form.loading
    ensures second == None
  {
    form := new ScanForm();
    form.Type(typed);
    first := form.Submit(true);
    form.CompleteScan(Started(scanId));
    second := form.Submit(true);
  }
}
