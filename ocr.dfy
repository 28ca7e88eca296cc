/**
 * The text rules the agent applies to a receipt: stripping a data-URL
 * header from the upload, joining the recognised page texts, and reading
 * the currency, the date and the merchant out of the joined text. The OCR
 * engine itself (base64 decoding, image and PDF decoding, Tesseract) and
 * the amount parser are parameters.
 */
module Ocr {

  import opened Base

  datatype OcrResult = OcrResult(
    receiptName: string, text: string, merchant: string, date: string, amount: string,
    currency: string)

  /** The ways `extract_from_base64` can raise. */
  datatype OcrError =
    | MalformedDataUrl   // a `data:` upload without a comma (`IndexError`)
    | InvalidBase64      // `base64.b64decode` rejects the payload
    | UnreadableImage    // neither PIL nor pdf2image can open the bytes

  /**
   * The collaborators of `extract_from_base64`: `decode` is
   * `base64.b64decode` (None where it raises), `images` is
   * `_images_from_bytes` for a file type (None where decoding raises),
   * `read` is `pytesseract.image_to_string` and `amount` is `_extract_amount`.
   */
  datatype Engine = Engine(
    decode: string -> Option<seq<bv8>>,
    images: (seq<bv8>, string) -> Option<seq<seq<bv8>>>,
    read: seq<bv8> -> string,
    amount: string -> string)

  // ---------------------------------------------------------------------
  // Data URLs
  // ---------------------------------------------------------------------

  /** The index of the first `c` in `s`, or `|s|` when there is none. */
  function IndexOf(s: string, c: char): (i: nat)
    ensures i <= |s|
    ensures i < |s| ==> s[i] == c
    ensures forall k :: 0 <= k < i ==> s[k] != c
    decreases |s|
  {
    if s == [] then 0 else if s[0] == c then 0 else 1 + IndexOf(s[1..], c)
  }

  /**
   * `_strip_data_url`: an upload starting with `data:` loses everything up
   * to and including its first comma; any other upload is returned as it
   * is. A `data:` upload without a comma raises, here `None`.
   */
  function StripDataUrl(data: string): (r: Option<string>)
    ensures !StartsWith(data, "data:") ==> r == Some(data)
    ensures StartsWith(data, "data:") ==> (r.None? <==> ',' !in data)
    ensures StartsWith(data, "data:") && r.Some? ==>
      exists k :: 0 <= k < |data| && data[k] == ',' && ',' !in data[..k] && r.value == data[k + 1..]
  {
    if StartsWith(data, "data:") then
      var k := IndexOf(data, ',');
      if k == |data| then None
      else (assert ',' !in data[..k]; Some(data[k + 1..]))
    else Some(data)
  }

  /** A data URL built from a comma-free header and any payload strips back to the payload. */
  lemma StripDataUrlRoundTrip(header: string, payload: string)
    requires ',' !in header
    ensures StripDataUrl("data:" + header + "," + payload) == Some(payload)
  {
    var data := "data:" + header + "," + payload;
    assert StartsWith(data, "data:");
    var k := 5 + |header|;
    assert data[k] == ',' && data[k + 1..] == payload;
    assert forall j :: 0 <= j < k ==> data[j] == ("data:" + header)[j];
    assert IndexOf(data, ',') == k;
  }

  // ---------------------------------------------------------------------
  // Currency
  // ---------------------------------------------------------------------

  /** `_detect_currency`: USD on `USD` or `$`, else EUR on `EUR` or `€`, else JPY. */
  function DetectCurrency(text: string): (c: string)
    ensures c == "USD" || c == "EUR" || c == "JPY"
    ensures c == "USD" <==> Contains(text, "USD") || Contains(text, "$")
    ensures c == "EUR" <==> !(Contains(text, "USD") || Contains(text, "$")) && (Contains(text, "EUR") || Contains(text, "€"))
    ensures c == "JPY" <==> !(Contains(text, "USD") || Contains(text, "$") || Contains(text, "EUR") || Contains(text, "€"))
  {
    if Contains(text, "USD") || Contains(text, "$") then "USD"
    else if Contains(text, "EUR") || Contains(text, "€") then "EUR"
    else if Contains(text, "¥") || Contains(text, "￥") then "JPY"
    else "JPY"
  }

  // ---------------------------------------------------------------------
  // Dates
  // ---------------------------------------------------------------------

  /** The two date patterns, tried in this order: `20YY/M/D` or `20YY-M-D`, then `20YY.M.D`. */
  datatype DatePattern = SlashOrDash | Dotted

  /** The separator class of a pattern: `[/-]` or `\.`. */
  predicate Sep(p: DatePattern, c: char)
  {
    match p
    case SlashOrDash => c == '/' || c == '-'
    case Dotted => c == '.'
  }

  predicate WordAt(uc: Unicode, text: string, i: int)
  {
    0 <= i < |text| && uc.isWord(text[i])
  }

  /** `\b` at position `pos`: a word character on exactly one side. */
  predicate Boundary(uc: Unicode, text: string, pos: nat)
  {
    WordAt(uc, text, pos - 1) != WordAt(uc, text, pos)
  }

  /** `n` characters of class `\d` from position `from`. */
  predicate Digits(uc: Unicode, text: string, from: nat, n: nat)
  {
    from + n <= |text| && forall k :: from <= k < from + n ==> uc.isDigit(text[k])
  }

  /** `\b20\d{2}<sep>` at `i`. */
  predicate Head(uc: Unicode, text: string, p: DatePattern, i: nat)
  {
    && i + 5 <= |text|
    && Boundary(uc, text, i)
    && text[i] == '2' && text[i + 1] == '0'
    && Digits(uc, text, i + 2, 2)
    && Sep(p, text[i + 4])
  }

  /** `\d{m}<sep>\d{d}\b` at `j`. */
  predicate Tail(uc: Unicode, text: string, p: DatePattern, j: nat, m: nat, d: nat)
  {
    && Digits(uc, text, j, m)
    && j + m < |text| && Sep(p, text[j + m])
    && Digits(uc, text, j + m + 1, d)
    && Boundary(uc, text, j + m + 1 + d)
  }

  /**
   * The end of the match of a pattern starting at `i`, if any. The greedy
   * `\d{1,2}` quantifiers are tried longest first, month before day, so the
   * digit counts are tried in the order (2,2), (2,1), (1,2), (1,1).
   */
  function MatchAt(uc: Unicode, text: string, p: DatePattern, i: nat): (r: Option<nat>)
    ensures r.Some? ==> i + 8 <= r.value <= i + 10 && r.value <= |text|
  {
    if !Head(uc, text, p, i) then None
    else if Tail(uc, text, p, i + 5, 2, 2) then Some(i + 10)
    else if Tail(uc, text, p, i + 5, 2, 1) then Some(i + 9)
    else if Tail(uc, text, p, i + 5, 1, 2) then Some(i + 9)
    else if Tail(uc, text, p, i + 5, 1, 1) then Some(i + 8)
    else None
  }

  datatype Span = Span(start: nat, end: nat)

  /** `re.search` from position `from`: the leftmost position where the pattern matches. */
  function Search(uc: Unicode, text: string, p: DatePattern, from: nat): (r: Option<Span>)
    requires from <= |text|
    ensures r.Some? ==>
      && from <= r.value.start && r.value.start + 8 <= r.value.end <= |text|
      && MatchAt(uc, text, p, r.value.start) == Some(r.value.end)
      && forall i :: from <= i < r.value.start ==> MatchAt(uc, text, p, i).None?
    ensures r.None? ==> forall i :: from <= i <= |text| ==> MatchAt(uc, text, p, i).None?
    decreases |text| - from
  {
    match MatchAt(uc, text, p, from)
    case Some(e) => Some(Span(from, e))
    case None => if from == |text| then None else Search(uc, text, p, from + 1)
  }

  /** The matched text with every `.` turned into `/`. */
  function DateText(text: string, s: Span): string
    requires s.start <= s.end <= |text|
  {
    ReplaceChar(text[s.start..s.end], '.', '/')
  }

  /** What `_extract_date` returns: the first pattern's leftmost match, else the second's, else `""`. */
  function DateOf(uc: Unicode, text: string): string
  {
    match Search(uc, text, SlashOrDash, 0)
    case Some(s) => DateText(text, s)
    case None =>
      match Search(uc, text, Dotted, 0)
      case Some(s) => DateText(text, s)
      case None => ""
  }

  /** `_extract_date`: tries the patterns in order and returns on the first match. */
  method ExtractDate(uc: Unicode, text: string) returns (date: string)
    ensures date == DateOf(uc, text)
  {
    var patterns := [SlashOrDash, Dotted];
    var k := 0;
    while k < |patterns|
      invariant 0 <= k <= |patterns|
      invariant forall j :: 0 <= j < k ==> Search(uc, text, patterns[j], 0).None?
    {
      var m := Search(uc, text, patterns[k], 0);
      if m.Some? {
        assert k == 1 ==> Search(uc, text, patterns[0], 0).None?;
        assert patterns[k] == if k == 0 then SlashOrDash else Dotted;
        return DateText(text, m.value);
      }
      k := k + 1;
    }
    assert Search(uc, text, patterns[0], 0).None? && Search(uc, text, patterns[1], 0).None?;
    return "";
  }

  /** No date is found exactly when neither pattern matches anywhere. */
  lemma DateEmptyIff(uc: Unicode, text: string)
    ensures DateOf(uc, text) == "" <==>
      (forall i :: 0 <= i <= |text| ==> MatchAt(uc, text, SlashOrDash, i).None? && MatchAt(uc, text, Dotted, i).None?)
  {
    var a, b := Search(uc, text, SlashOrDash, 0), Search(uc, text, Dotted, 0);
    if a.Some? {
      assert |DateOf(uc, text)| >= 8;
    } else if b.Some? {
      assert |DateOf(uc, text)| >= 8;
    }
  }

  /** A found date is eight to ten characters long, starts with `20` and holds no `.`. */
  lemma DateShape(uc: Unicode, text: string)
    requires DateOf(uc, text) != ""
    ensures var d := DateOf(uc, text);
      8 <= |d| <= 10 && StartsWith(d, "20") && '.' !in d
  {
    var d := DateOf(uc, text);
    var s := if Search(uc, text, SlashOrDash, 0).Some? then Search(uc, text, SlashOrDash, 0).value
             else Search(uc, text, Dotted, 0).value;
    assert d == DateText(text, s);
    assert text[s.start] == '2' && text[s.start + 1] == '0';
    assert d[0] == '2' && d[1] == '0';
    assert d[..2] == "20";
  }

  /**
   * A slash or dash date anywhere in the text wins over a dotted date, even
   * one that comes earlier: the result is then the leftmost slash or dash
   * match, and the dotted pattern plays no part.
   */
  lemma SlashOrDashFirst(uc: Unicode, text: string, i: nat, e: nat)
    requires i <= |text| && MatchAt(uc, text, SlashOrDash, i) == Some(e)
    ensures Search(uc, text, SlashOrDash, 0).Some?
    ensures Search(uc, text, SlashOrDash, 0).value.start <= i
    ensures DateOf(uc, text) == DateText(text, Search(uc, text, SlashOrDash, 0).value)
  {
  }

  /** Characters classified as in ASCII text: `\d` is 0-9 and `\w` is letters, digits and `_`. */
  predicate AsciiClasses(uc: Unicode, s: string)
  {
    forall k :: 0 <= k < |s| ==>
      && (uc.isDigit(s[k]) <==> '0' <= s[k] <= '9')
      && (uc.isWord(s[k]) <==> ('0' <= s[k] <= '9' || 'a' <= s[k] <= 'z' || 'A' <= s[k] <= 'Z' || s[k] == '_'))
  }

  const DottedReceipt := "Receipt 2024.03.05"

  /** A dotted date is found and written with slashes. */
  lemma DottedDateExample(uc: Unicode)
    requires AsciiClasses(uc, DottedReceipt)
    ensures DateOf(uc, DottedReceipt) == "2024/03/05"
  {
    var t := DottedReceipt;
    NoSlashDateInExample(uc);
    DottedMatchInExample(uc);
    assert DateOf(uc, t) == DateText(t, Span(8, 18));
    assert t[8..18] == "2024.03.05";
    DotsReplaced();
  }

  lemma DotsReplaced()
    ensures ReplaceChar("2024.03.05", '.', '/') == "2024/03/05"
  {
    var d := ReplaceChar("2024.03.05", '.', '/');
    forall k | 0 <= k < 10 ensures d[k] == "2024/03/05"[k] {
      if k == 4 || k == 7 {} else {}
    }
  }

  lemma NoSlashDateInExample(uc: Unicode)
    requires AsciiClasses(uc, DottedReceipt)
    ensures Search(uc, DottedReceipt, SlashOrDash, 0).None?
  {
    var t := DottedReceipt;
    assert !Head(uc, t, SlashOrDash, 8) by {
      assert !Sep(SlashOrDash, t[12]);
    }
    forall i | 0 <= i < 8 || 8 < i <= 13 ensures !Head(uc, t, SlashOrDash, i) {
      assert t[i] != '2' || t[i + 1] != '0';
    }
    assert forall i :: 0 <= i <= |t| ==> !Head(uc, t, SlashOrDash, i);
  }

  lemma DottedMatchInExample(uc: Unicode)
    requires AsciiClasses(uc, DottedReceipt)
    ensures Search(uc, DottedReceipt, Dotted, 0) == Some(Span(8, 18))
  {
    var t := DottedReceipt;
    forall i | 0 <= i < 8 ensures MatchAt(uc, t, Dotted, i).None? {
      assert t[i] != '2';
    }
    assert Boundary(uc, t, 8) && Digits(uc, t, 10, 2) && Head(uc, t, Dotted, 8);
    assert Tail(uc, t, Dotted, 13, 2, 2);
  }

  // ---------------------------------------------------------------------
  // Merchant
  // ---------------------------------------------------------------------

  /** The characters at which `str.splitlines` breaks a line (`\r\n` counts as one break). */
  predicate LineBreak(c: char)
  {
    c == '\n' || c == '\r' || c == '\U{0B}' || c == '\U{0C}' || c == '\U{1C}' || c == '\U{1D}'
    || c == '\U{1E}' || c == '\U{85}' || c == '\U{2028}' || c == '\U{2029}'
  }

  function FirstBreak(s: string): (i: nat)
    ensures i <= |s|
    ensures i < |s| ==> LineBreak(s[i])
    ensures forall k :: 0 <= k < i ==> !LineBreak(s[k])
    decreases |s|
  {
    if s == [] then 0 else if LineBreak(s[0]) then 0 else 1 + FirstBreak(s[1..])
  }

  /** `str.splitlines()`: the lines without their breaks, and no empty line after a final break. */
  function SplitLines(s: string): (lines: seq<string>)
    ensures forall i :: 0 <= i < |lines| ==> forall k :: 0 <= k < |lines[i]| ==> !LineBreak(lines[i][k])
    decreases |s|
  {
    if s == [] then []
    else
      var i := FirstBreak(s);
      if i == |s| then [s]
      else
        var next := if s[i] == '\r' && i + 1 < |s| && s[i + 1] == '\n' then i + 2 else i + 1;
        [s[..i]] + SplitLines(s[next..])
  }

  /** Joining the lines of a text whose only breaks are single `\n`s gives the text back. */
  lemma {:induction false} SplitLinesJoin(s: string)
    requires s != [] && s[|s| - 1] != '\n' && forall k :: 0 <= k < |s| ==> s[k] == '\n' || !LineBreak(s[k])
    ensures Join("\n", SplitLines(s)) == s
    decreases |s|
  {
    var i := FirstBreak(s);
    if i < |s| {
      var rest := s[i + 1..];
      SplitAtNewline(s, i);
      SplitLinesJoin(rest);
      JoinCons(s[..i], SplitLines(rest));
    }
  }

  /** One step of SplitLines at a `\n` that is not the last character. */
  lemma SplitAtNewline(s: string, i: nat)
    requires s != [] && s[|s| - 1] != '\n' && forall k :: 0 <= k < |s| ==> s[k] == '\n' || !LineBreak(s[k])
    requires i == FirstBreak(s) && i < |s|
    ensures var rest := s[i + 1..];
      && s == s[..i] + "\n" + rest
      && rest != [] && rest[|rest| - 1] != '\n' && (forall k :: 0 <= k < |rest| ==> rest[k] == '\n' || !LineBreak(rest[k]))
      && SplitLines(s) == [s[..i]] + SplitLines(rest)
      && |SplitLines(rest)| >= 1
  {
    assert s[i] == '\n' && i < |s| - 1;
    var rest := s[i + 1..];
    assert rest[|rest| - 1] == s[|s| - 1];
    assert forall k :: 0 <= k < |rest| ==> rest[k] == s[i + 1 + k];
  }

  lemma JoinCons(x: string, xs: seq<string>)
    requires |xs| >= 1
    ensures Join("\n", [x] + xs) == x + "\n" + Join("\n", xs)
  {
    assert ([x] + xs)[1..] == xs;
  }

  /** Some character of `s` is a word character other than a digit. */
  predicate HasNameChar(uc: Unicode, s: string)
    decreases |s|
  {
    s != [] && ((uc.isWord(s[0]) && !uc.isDigit(s[0])) || HasNameChar(uc, s[1..]))
  }

  lemma {:induction false} HasNameCharIff(uc: Unicode, s: string)
    ensures HasNameChar(uc, s) <==> exists k :: 0 <= k < |s| && uc.isWord(s[k]) && !uc.isDigit(s[k])
    decreases |s|
  {
    if s != [] {
      HasNameCharIff(uc, s[1..]);
      if exists k :: 0 <= k < |s| && uc.isWord(s[k]) && !uc.isDigit(s[k]) {
        var k :| 0 <= k < |s| && uc.isWord(s[k]) && !uc.isDigit(s[k]);
        if k > 0 {
          assert s[1..][k - 1] == s[k];
        }
      }
    }
  }

  /**
   * A stripped line names the merchant when it is not empty and does not
   * fully match `[\d\W]+`, that is, some character is a word character
   * other than a digit.
   */
  predicate Qualifies(uc: Unicode, cleaned: string)
  {
    cleaned != [] && HasNameChar(uc, cleaned)
  }

  /** Every line with its surrounding whitespace removed. */
  function StrippedLines(lines: seq<string>): (cleaned: seq<string>)
    ensures |cleaned| == |lines|
    ensures forall i :: 0 <= i < |lines| ==> cleaned[i] == Strip(lines[i])
  {
    seq(|lines|, i requires 0 <= i < |lines| => Strip(lines[i]))
  }

  /** The first qualifying stripped line, or `""` when there is none. */
  function FirstNaming(uc: Unicode, cleaned: seq<string>): (m: string)
    decreases |cleaned|
  {
    if cleaned == [] then ""
    else if Qualifies(uc, cleaned[0]) then cleaned[0]
    else FirstNaming(uc, cleaned[1..])
  }

  /** The merchant of a text split into lines. */
  function MerchantIn(uc: Unicode, lines: seq<string>): string
  {
    FirstNaming(uc, StrippedLines(lines))
  }

  /** The merchant is the first stripped line that qualifies. */
  lemma {:induction false} MerchantFirst(uc: Unicode, cleaned: seq<string>, i: nat)
    requires i < |cleaned| && Qualifies(uc, cleaned[i])
    requires forall j :: 0 <= j < i ==> !Qualifies(uc, cleaned[j])
    ensures FirstNaming(uc, cleaned) == cleaned[i]
    decreases i
  {
    if i > 0 {
      assert forall j :: 0 <= j < i - 1 ==> cleaned[1..][j] == cleaned[j + 1];
      MerchantFirst(uc, cleaned[1..], i - 1);
    }
  }

  /** No merchant is found exactly when no stripped line qualifies. */
  lemma {:induction false} MerchantEmptyIff(uc: Unicode, cleaned: seq<string>)
    ensures FirstNaming(uc, cleaned) == "" <==> forall i :: 0 <= i < |cleaned| ==> !Qualifies(uc, cleaned[i])
    decreases |cleaned|
  {
    if cleaned != [] {
      var tail := cleaned[1..];
      MerchantEmptyIff(uc, tail);
      if !Qualifies(uc, cleaned[0]) {
        assert forall i :: 1 <= i < |cleaned| ==> cleaned[i] == tail[i - 1];
      }
    }
  }

  /** `_extract_merchant`: scans the lines in order and returns on the first qualifying one. */
  method ExtractMerchant(uc: Unicode, text: string) returns (merchant: string)
    ensures merchant == MerchantIn(uc, SplitLines(text))
  {
    var lines := SplitLines(text);
    ghost var all := StrippedLines(lines);
    var i := 0;
    while i < |lines|
      invariant 0 <= i <= |lines|
      invariant MerchantIn(uc, lines) == FirstNaming(uc, all[i..])
    {
      assert all[i..][1..] == all[i + 1..];
      var cleaned := Strip(lines[i]);
      assert all[i..][0] == cleaned;
      if cleaned == [] {
        i := i + 1;
        continue;
      }
      if !Qualifies(uc, cleaned) {
        i := i + 1;
        continue;
      }
      return cleaned;
    }
    return "";
  }

  // ---------------------------------------------------------------------
  // Whole extraction
  // ---------------------------------------------------------------------

  /** The stripped page texts that are not blank, in page order. */
  function KeptPages(parts: seq<string>): (kept: seq<string>)
    ensures |kept| <= |parts|
    ensures forall i :: 0 <= i < |kept| ==> kept[i] != "" && kept[i] == Strip(kept[i])
    decreases |parts|
  {
    if parts == [] then []
    else if Strip(parts[0]) != "" then (StripIdempotent(parts[0]); [Strip(parts[0])] + KeptPages(parts[1..]))
    else KeptPages(parts[1..])
  }

  /**
   * The kept pages are stripped pages in page order, and every page that is
   * not blank once stripped is among them.
   */
  lemma {:induction false} KeptPagesInOrder(parts: seq<string>)
    ensures Subsequence(KeptPages(parts), StrippedLines(parts))
    ensures forall i :: 0 <= i < |parts| && Strip(parts[i]) != "" ==> Strip(parts[i]) in KeptPages(parts)
    decreases |parts|
  {
    if parts != [] {
      KeptPagesInOrder(parts[1..]);
      var kept, rest := KeptPages(parts), KeptPages(parts[1..]);
      var all := StrippedLines(parts);
      assert all[1..] == StrippedLines(parts[1..]);
      if Strip(parts[0]) != "" {
        assert kept[1..] == rest;
      } else {
        assert kept == rest;
      }
      forall i | 0 <= i < |parts| && Strip(parts[i]) != ""
        ensures Strip(parts[i]) in kept
      {
        if i > 0 {
          assert parts[1..][i - 1] == parts[i];
        }
      }
    }
  }

  /**
   * One more page adds its stripped text at the end exactly when it is not
   * blank; with `KeptPages([]) == []` this fixes the kept pages, repeats
   * included.
   */
  lemma {:induction false} KeptPagesSnoc(parts: seq<string>, p: string)
    ensures KeptPages(parts + [p]) == KeptPages(parts) + (if Strip(p) != "" then [Strip(p)] else [])
    decreases |parts|
  {
    if parts == [] {
      assert parts + [p] == [p];
      assert [p][1..] == [];
    } else {
      assert (parts + [p])[0] == parts[0];
      assert (parts + [p])[1..] == parts[1..] + [p];
      KeptPagesSnoc(parts[1..], p);
    }
  }

  /** Stripping twice strips once. */
  lemma StripIdempotent(s: string)
    ensures Strip(Strip(s)) == Strip(s)
  {
    var r := Strip(s);
    if r != [] {
      assert TrimStart(r) == r;
      assert TrimEnd(r) == r;
    }
  }

  /** The texts of the pages, in page order. */
  function PageTexts(engine: Engine, images: seq<seq<bv8>>): (texts: seq<string>)
    ensures |texts| == |images|
    ensures forall i :: 0 <= i < |images| ==> texts[i] == engine.read(images[i])
  {
    seq(|images|, i requires 0 <= i < |images| => engine.read(images[i]))
  }

  /** `"\n".join(part.strip() for part in text_parts if part.strip())`. */
  function JoinedText(texts: seq<string>): string
  {
    Join("\n", KeptPages(texts))
  }

  /**
   * What `extract_from_base64` returns or raises: a `data:` payload without
   * a comma is refused before anything is decoded (any other payload goes
   * to the decoder as it is), and a result keeps the receipt name it was
   * given and names one of the three currencies.
   */
  function ExtractionOf(uc: Unicode, engine: Engine, fileBase64: string, fileType: string, receiptName: string)
    : (r: Result<OcrResult, OcrError>)
    ensures StripDataUrl(fileBase64).None? ==> r == Err(MalformedDataUrl)
    ensures r.Ok? ==> r.value.receiptName == receiptName
    ensures r.Ok? ==> r.value.currency in {"USD", "EUR", "JPY"}
  {
    match StripDataUrl(fileBase64)
    case None => Err(MalformedDataUrl)
    case Some(payload) =>
      match engine.decode(payload)
      case None => Err(InvalidBase64)
      case Some(bytes) =>
        match engine.images(bytes, fileType)
        case None => Err(UnreadableImage)
        case Some(images) =>
          var text := JoinedText(PageTexts(engine, images));
          Ok(OcrResult(receiptName, text, MerchantIn(uc, SplitLines(text)), DateOf(uc, text),
                       engine.amount(text), DetectCurrency(text)))
  }

  /**
   * `extract_from_base64`: the pages are read one by one, the non-blank
   * stripped texts joined with newlines, and the four fields read from the
   * joined text; the receipt name passes through unchanged.
   */
  method ExtractFromBase64(uc: Unicode, engine: Engine, fileBase64: string, fileType: string, receiptName: string)
    returns (r: Result<OcrResult, OcrError>)
    ensures r == ExtractionOf(uc, engine, fileBase64, fileType, receiptName)
  {
    var payload := StripDataUrl(fileBase64);
    if payload.None? {
      return Err(MalformedDataUrl);
    }
    var bytes := engine.decode(payload.value);
    if bytes.None? {
      return Err(InvalidBase64);
    }
    var images := engine.images(bytes.value, fileType);
    if images.None? {
      return Err(UnreadableImage);
    }
    var textParts: seq<string> := [];
    var i := 0;
    while i < |images.value|
      invariant 0 <= i <= |images.value|
      invariant textParts == PageTexts(engine, images.value[..i])
    {
      textParts := textParts + [engine.read(images.value[i])];
      i := i + 1;
    }
    assert images.value[..i] == images.value;
    var text := JoinedText(textParts);
    var merchant := ExtractMerchant(uc, text);
    var date := ExtractDate(uc, text);
    r := Ok(OcrResult(receiptName, text, merchant, date, engine.amount(text), DetectCurrency(text)));
  }
}
