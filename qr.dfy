/** QR generation: the option defaults shallow-merged under the caller's
    options, the library call (a parameter here) with its failure rethrown
    under a fixed message, and the verification link a QR code carries. */
module Qr {
  import opened Common
  import UriEncoding

  datatype ErrorCorrection = LevelL | LevelM | LevelQ | LevelH

  /** `{ dark?, light? }`. */
  datatype QrColor = QrColor(dark: Option<string>, light: Option<string>)

  /** `QRCodeOptions`, every key optional. */
  datatype QrOptions = QrOptions(
    width: Option<real>,
    height: Option<real>,
    color: Option<QrColor>,
    margin: Option<real>,
    errorCorrectionLevel: Option<ErrorCorrection>)

  /** The options object handed to the library after the merge. */
  datatype EffectiveOptions = EffectiveOptions(
    width: real,
    height: real,
    color: QrColor,
    margin: real,
    errorCorrectionLevel: ErrorCorrection)

  const NoOptions := QrOptions(None, None, None, None, None)
  const DefaultColor := QrColor(Some("#000000"), Some("#FFFFFF"))
  const Defaults := EffectiveOptions(200.0, 200.0, DefaultColor, 2.0, LevelM)

  function Pick<T>(o: Option<T>, d: T): T {
    if o.Some? then o.value else d
  }

  /** `{ ...defaults, ...options }`: a key the caller gives replaces the
      default wholesale, `color` included (the merge is shallow). */
  function Merge(options: QrOptions): (r: EffectiveOptions)
    ensures options.width.Some? ==> r.width == options.width.value
    ensures options.width.None? ==> r.width == 200.0
    ensures options.height.Some? ==> r.height == options.height.value
    ensures options.height.None? ==> r.height == 200.0
    ensures options.color.Some? ==> r.color == options.color.value
    ensures options.color.None? ==> r.color == DefaultColor
    ensures options.margin.Some? ==> r.margin == options.margin.value
    ensures options.margin.None? ==> r.margin == 2.0
    ensures options.errorCorrectionLevel.Some? ==> r.errorCorrectionLevel == options.errorCorrectionLevel.value
    ensures options.errorCorrectionLevel.None? ==> r.errorCorrectionLevel == LevelM
  {
    EffectiveOptions(
      Pick(options.width, Defaults.width),
      Pick(options.height, Defaults.height),
      Pick(options.color, Defaults.color),
      Pick(options.margin, Defaults.margin),
      Pick(options.errorCorrectionLevel, Defaults.errorCorrectionLevel))
  }

  /** Every key of an effective options object, given explicitly. */
  function Explicit(e: EffectiveOptions): QrOptions {
    QrOptions(Some(e.width), Some(e.height), Some(e.color), Some(e.margin), Some(e.errorCorrectionLevel))
  }

  /** Omitting the options yields the defaults. */
  lemma MergeNoOptions()
    ensures Merge(NoOptions) == Defaults
  {
  }

  /** Merging is idempotent: merging an already merged object changes nothing. */
  lemma MergeIdempotent(options: QrOptions)
    ensures Merge(Explicit(Merge(options))) == Merge(options)
  {
  }

  /** A caller's colour with only `dark` loses the default `light`: the
      colour object is replaced, not merged key by key. */
  lemma ColorReplacedWholesale(dark: string)
    ensures Merge(NoOptions.(color := Some(QrColor(Some(dark), None)))).color.light == None
  {
  }

  const QrCodeError := "Failed to generate QR code"
  const QrCanvasError := "Failed to generate QR code canvas"

  /** `generateQRCode`: the library's data URL, or the fixed error when the
      library fails. `toDataUrl` stands for `QRCode.toDataURL`. */
  function GenerateQrCode(data: string, options: QrOptions, toDataUrl: (string, EffectiveOptions) -> Option<string>): (r: Result<string>)
    ensures r.Ok? <==> toDataUrl(data, Merge(options)).Some?
    ensures r.Ok? ==> r.value == toDataUrl(data, Merge(options)).value
    ensures r.Err? ==> r.error == QrCodeError
  {
    match toDataUrl(data, Merge(options))
    case Some(url) => Ok(url)
    case None => Err(QrCodeError)
  }

  /** A canvas the library has drawn `data` onto with these options. */
  datatype QrCanvas = QrCanvas(data: string, options: EffectiveOptions)

  /** `generateQRCodeCanvas`: `toCanvas` says whether `QRCode.toCanvas`
      succeeds for these arguments. */
  function GenerateQrCodeCanvas(data: string, options: QrOptions, toCanvas: (string, EffectiveOptions) -> bool): (r: Result<QrCanvas>)
    ensures r.Ok? <==> toCanvas(data, Merge(options))
    ensures r.Ok? ==> r.value == QrCanvas(data, Merge(options))
    ensures r.Err? ==> r.error == QrCanvasError
  {
    if toCanvas(data, Merge(options)) then Ok(QrCanvas(data, Merge(options))) else Err(QrCanvasError)
  }

  const FallbackOrigin := "https://certigenie.app"
  const ParamName := "certificateId"
  const VerifyPage := "/verify"

  /** `generateVerificationURL`: `origin` is `window.location.origin`, or
      `None` where there is no window. */
  function VerificationUrl(origin: Option<string>, certificateId: string): (r: string)
    ensures origin.None? ==> StartsWith(r, FallbackOrigin)
    ensures origin.Some? ==> StartsWith(r, origin.value)
    ensures r == Pick(origin, FallbackOrigin) + "/verify?certificateId=" + UriEncoding.EncodeUriComponent(certificateId)
  {
    Pick(origin, FallbackOrigin) + VerifyPage + ['?'] + ParamName + "=" + UriEncoding.EncodeUriComponent(certificateId)
  }

  /** The position of the first `c` in `s`. */
  function IndexOf(s: string, c: char): (r: Option<nat>)
    ensures r.None? <==> c !in s
    ensures r.Some? ==> r.value < |s| && s[r.value] == c && c !in s[..r.value]
  {
    if s == "" then None
    else if s[0] == c then Some(0)
    else match IndexOf(s[1..], c)
      case None => None
      case Some(i) => assert s[..i + 1] == [s[0]] + s[1..][..i]; Some(i + 1)
  }

  /** Form decoding of a query component: `+` is a space, then percent-decoding. */
  function FormDecode(s: string): Option<string> {
    UriEncoding.DecodeUriComponent(seq(|s|, i requires 0 <= i < |s| => if s[i] == '+' then ' ' else s[i]))
  }

  /** A pair's name: the text before its first `=`, or the whole pair. */
  function PairName(pair: string): (r: string)
    ensures '=' !in r && StartsWith(pair, r)
  {
    match IndexOf(pair, '=')
    case None => pair
    case Some(e) => pair[..e]
  }

  /** A pair's value: the text after its first `=`, empty when it has none. */
  function PairValue(pair: string): (r: string)
    ensures '=' in pair ==> pair == PairName(pair) + "=" + r
    ensures '=' !in pair ==> r == ""
  {
    match IndexOf(pair, '=')
    case None => ""
    case Some(e) => assert pair == pair[..e] + "=" + pair[e + 1..]; pair[e + 1..]
  }

  /** The pair is not empty and its decoded name is `name`. */
  predicate Names(pair: string, name: string) {
    pair != "" && FormDecode(PairName(pair)) == Some(name)
  }

  /** `location.search` without its `?`: the text after the first `?` and
      before the fragment, empty when no `?` comes before the fragment. */
  function Search(url: string): (r: string)
    ensures '#' !in r
  {
    var path := match IndexOf(url, '#') case None => url case Some(h) => url[..h];
    assert '#' !in path;
    match IndexOf(path, '?')
    case None => ""
    case Some(q) =>
      assert forall i :: q + 1 <= i < |path| ==> path[q + 1..][i - q - 1] == path[i];
      path[q + 1..]
  }

  /** `new URLSearchParams(location.search).get(name)`: the decoded value of
      the first non-empty pair whose decoded name is `name`; `None` when no
      pair names it or the value does not decode. */
  function QueryParam(url: string, name: string): (r: Option<string>)
    ensures r.Some? ==> exists i :: 0 <= i < |Split(Search(url), '&')| && Names(Split(Search(url), '&')[i], name)
  {
    FirstParam(Split(Search(url), '&'), name)
  }

  function FirstParam(pairs: seq<string>, name: string): (r: Option<string>)
    ensures (forall i :: 0 <= i < |pairs| ==> !Names(pairs[i], name)) ==> r.None?
  {
    if pairs == [] then None
    else if Names(pairs[0], name) then FormDecode(PairValue(pairs[0]))
    else FirstParam(pairs[1..], name)
  }

  /** The first pair naming `name` decides the result; later ones are ignored. */
  lemma {:induction false} FirstParamFirstMatch(pairs: seq<string>, name: string, i: nat)
    requires i < |pairs| && Names(pairs[i], name)
    requires forall j :: 0 <= j < i ==> !Names(pairs[j], name)
    ensures FirstParam(pairs, name) == FormDecode(PairValue(pairs[i]))
  {
    if i > 0 {
      FirstParamFirstMatch(pairs[1..], name, i - 1);
    }
  }

  /** A bare `name` pair, with no `=`, has the empty value. */
  lemma BarePairIsEmpty(name: string)
    requires name != "" && '=' !in name && FormDecode(name) == Some(name)
    ensures FirstParam([name], name) == Some("")
  {
    assert PairName(name) == name;
    assert FormDecode("") == Some("") by {
      assert seq(0, i requires 0 <= i < 0 => ' ') == "";
    }
  }

  lemma {:induction false} SplitWithoutSeparator(s: string, sep: char)
    requires sep !in s
    ensures Split(s, sep) == [s]
  {
    if s != "" {
      SplitWithoutSeparator(s[1..], sep);
      assert [s[0]] + s[1..] == s;
    }
  }

  lemma {:induction false} IndexOfFirst(pre: string, c: char, post: string)
    requires c !in pre
    ensures IndexOf(pre + [c] + post, c) == Some(|pre|)
  {
    var s := pre + [c] + post;
    var i := IndexOf(s, c).value;
    assert forall j :: 0 <= j < |pre| ==> s[j] == pre[j];
    assert s[|pre|] == c;
  }

  /** Neither a pair separator nor an encoded space. */
  predicate NoQuerySyntax(value: string) {
    forall i :: 0 <= i < |value| ==> value[i] != '&' && value[i] != '+'
  }

  lemma PairOfNameAndValue(name: string, value: string)
    requires '=' !in name
    ensures PairName(name + "=" + value) == name && PairValue(name + "=" + value) == value
  {
    IndexOfFirst(name, '=', value);
    assert name + "=" + value == name + ['='] + value;
  }

  /** A query of one pair, whose name reads as itself and whose value never
      holds `&` or `+`, yields that value, decoded. */
  lemma SinglePairQuery(name: string, value: string)
    requires name != "" && '&' !in name && '=' !in name && FormDecode(name) == Some(name)
    requires NoQuerySyntax(value)
    ensures FirstParam(Split(name + "=" + value, '&'), name) == UriEncoding.DecodeUriComponent(value)
  {
    var query := name + "=" + value;
    assert '&' !in value;
    assert query == name + ['='] + value;
    SplitWithoutSeparator(query, '&');
    PairOfNameAndValue(name, value);
    var plain := seq(|value|, i requires 0 <= i < |value| => if value[i] == '+' then ' ' else value[i]);
    assert plain == value;
  }

  /** An encoded component holds no `&`, `+` or `#`. */
  lemma EncodedHasNoQuerySyntax(s: string)
    ensures NoQuerySyntax(UriEncoding.EncodeUriComponent(s))
    ensures '#' !in UriEncoding.EncodeUriComponent(s)
  {
    var enc := UriEncoding.EncodeUriComponent(s);
    UriEncoding.EncodedIsQuerySafe(s);
    forall i | 0 <= i < |enc|
      ensures enc[i] != '&' && enc[i] != '+' && enc[i] != '#'
    {
      var c := enc[i];
      assert UriEncoding.IsUnescaped(c) || c == '%';
    }
  }

  /** The fragment after a `#` never reaches the query. */
  lemma QueryIgnoresFragment(url: string, fragment: string, name: string)
    requires '#' !in url
    ensures QueryParam(url + ['#'] + fragment, name) == QueryParam(url, name)
  {
    IndexOfFirst(url, '#', fragment);
    assert (url + ['#'] + fragment)[..|url|] == url;
  }

  /** Without a fragment, the query is read from after the first `?`. */
  lemma QueryAfterFirstMark(pre: string, query: string, name: string)
    requires '?' !in pre && '#' !in pre && '#' !in query
    ensures QueryParam(pre + ['?'] + query, name) == FirstParam(Split(query, '&'), name)
  {
    var url := pre + ['?'] + query;
    assert '#' !in url by {
      assert forall i :: 0 <= i < |pre| ==> url[i] == pre[i];
      assert forall i :: |pre| + 1 <= i < |url| ==> url[i] == query[i - |pre| - 1];
    }
    IndexOfFirst(pre, '?', query);
    assert url[|pre| + 1..] == query;
  }

  /** The fixed parts of the link hold no query syntax. */
  lemma ConstantPartsPlain()
    ensures '?' !in FallbackOrigin && '#' !in FallbackOrigin
    ensures '?' !in VerifyPage && '#' !in VerifyPage
    ensures '&' !in ParamName && '=' !in ParamName && '#' !in ParamName
  {
    assert forall i :: 0 <= i < |ParamName| ==> UriEncoding.IsIdChar(ParamName[i]);
    assert forall i :: 0 <= i < |VerifyPage| ==> VerifyPage[i] != '?' && VerifyPage[i] != '#';
    assert forall i :: 0 <= i < |FallbackOrigin| ==> FallbackOrigin[i] != '?' && FallbackOrigin[i] != '#';
  }

  /** A name over `[A-Za-z0-9-]` form-decodes to itself. */
  lemma IdDecodesToItself(s: string)
    requires forall i :: 0 <= i < |s| ==> UriEncoding.IsIdChar(s[i])
    ensures FormDecode(s) == Some(s)
  {
    UriEncoding.EncodeIdIsIdentity(s);
    UriEncoding.DecodeEncode(s);
    var plain := seq(|s|, i requires 0 <= i < |s| => if s[i] == '+' then ' ' else s[i]);
    assert plain == s;
  }

  /** The parameter name decodes to itself. */
  lemma ParamNameReadsBack()
    ensures FormDecode(ParamName) == Some(ParamName)
  {
    assert forall i :: 0 <= i < |ParamName| ==> UriEncoding.IsIdChar(ParamName[i]);
    IdDecodesToItself(ParamName);
  }

  /** A page origin: `window.location.origin` is scheme, host and port, so it
      holds neither `?` nor `#`. */
  predicate PlainOrigin(origin: Option<string>) {
    origin.Some? ==> '?' !in origin.value && '#' !in origin.value
  }

  /** The verification page reads back exactly the id the link was made for,
      for any id of scalar values. */
  lemma VerificationUrlRoundTrip(origin: Option<string>, certificateId: string)
    requires PlainOrigin(origin)
    ensures QueryParam(VerificationUrl(origin, certificateId), ParamName) == Some(certificateId)
  {
    var enc := UriEncoding.EncodeUriComponent(certificateId);
    var pre := Pick(origin, FallbackOrigin) + VerifyPage;
    var query := ParamName + "=" + enc;
    assert VerificationUrl(origin, certificateId) == pre + ['?'] + query;
    ConstantPartsPlain();
    assert '?' !in pre && '#' !in pre;
    EncodedHasNoQuerySyntax(certificateId);
    assert '#' !in query;
    QueryAfterFirstMark(pre, query, ParamName);
    ParamNameReadsBack();
    SinglePairQuery(ParamName, enc);
    UriEncoding.DecodeEncode(certificateId);
  }
}
