/** The drawing plugin's text helpers: turning a drawing request into an
    image description, the description fallback, and the check on the image
    URL the generation service returns. */
module ImageGeneration {
  import opened Wrappers
  import opened SeqFacts
  import opened Text

  /** The words deleted from a request, in the order they are deleted. */
  const Keywords: seq<string> := ["画", "绘", "生成", "创作", "设计", "帮我", "给我", "画个", "画一张", "画一下"]

  /** The characters of the class `[，。！？,\.!\?]`. */
  const Punctuation: set<char> := {'，', '。', '！', '？', ',', '.', '!', '?'}

  /** The fallback when nothing is left of the request. */
  const DefaultDescription: string := "一幅美丽的艺术作品"

  predicate AllNonEmpty(kws: seq<string>) {
    forall i :: 0 <= i < |kws| ==> kws[i] != []
  }

  lemma KeywordFacts()
    ensures |Keywords| == 10 && AllNonEmpty(Keywords)
    ensures Keywords[0] == "画" && Keywords[1] == "绘"
    ensures forall i :: 7 <= i < 10 ==> Keywords[i][0] == '画'
  {
  }

  /** Every slice of a list of non-empty keywords is one too. */
  lemma AllNonEmptySlice(kws: seq<string>, lo: int, hi: int)
    requires AllNonEmpty(kws) && 0 <= lo <= hi <= |kws|
    ensures AllNonEmpty(kws[lo..hi])
    ensures lo == 0 ==> AllNonEmpty(kws[..hi])
    ensures hi == |kws| ==> AllNonEmpty(kws[lo..])
  {
    assert forall i :: 0 <= i < hi - lo ==> kws[lo..hi][i] == kws[lo + i];
    assert forall i :: 0 <= i < hi ==> kws[..hi][i] == kws[i];
    assert forall i :: 0 <= i < |kws| - lo ==> kws[lo..][i] == kws[lo + i];
  }

  /** The keyword loop: for each keyword in turn, delete all its
      occurrences and strip the result. */
  function StripKeywords(s: string, kws: seq<string>): (r: string)
    requires AllNonEmpty(kws)
    ensures forall c :: c in r ==> c in s
    ensures kws != [] ==> NoEdgeSpace(r)
    decreases |kws|
  {
    if kws == [] then s
    else
      var t := Strip(DeleteAll(s, kws[0]));
      var r := StripKeywords(t, kws[1..]);
      assert kws[1..] != [] ==> NoEdgeSpace(r);
      assert kws[1..] == [] ==> r == t;
      r
  }

  /** `re.sub(r'[，。！？,\.!\?]', '', s)`. */
  function DropPunctuation(s: string): (r: string)
    ensures forall c :: c in r ==> c in s && c !in Punctuation
  {
    if s == [] then []
    else
      var rest := DropPunctuation(s[1..]);
      assert forall c :: c in rest ==> c in s;
      (if s[0] in Punctuation then [] else [s[0]]) + rest
  }

  /** What `_extract_drawing_description` returns for a message. */
  function DescriptionOf(message: string): (r: string)
    ensures NoEdgeSpace(r)
    ensures forall c :: c in r ==> c in message && c !in Punctuation
  {
    Strip(DropPunctuation(StripKeywords(message, Keywords)))
  }

  /** Running the keyword loop over two lists in turn is running it over
      their concatenation. */
  lemma {:induction false} StripKeywordsAppend(s: string, a: seq<string>, b: seq<string>)
    requires AllNonEmpty(a) && AllNonEmpty(b)
    ensures AllNonEmpty(a + b)
    ensures StripKeywords(s, a + b) == StripKeywords(StripKeywords(s, a), b)
    decreases |a|
  {
    assert forall i :: 0 <= i < |a + b| ==> (a + b)[i] == if i < |a| then a[i] else b[i - |a|];
    if a != [] {
      AppendFront(a, b);
      StripKeywordsAppend(Strip(DeleteAll(s, a[0])), a[1..], b);
    } else {
      AppendEmpty(b);
    }
  }

  /** The keyword loop up to position `i + 1` is one more step after the
      loop up to `i`. */
  lemma StripKeywordsSnoc(s: string, kws: seq<string>, i: int)
    requires AllNonEmpty(kws) && 0 <= i < |kws|
    ensures AllNonEmpty(kws[..i]) && AllNonEmpty(kws[..i + 1])
    ensures StripKeywords(s, kws[..i + 1]) == Strip(DeleteAll(StripKeywords(s, kws[..i]), kws[i]))
  {
    AllNonEmptySlice(kws, 0, i);
    AllNonEmptySlice(kws, 0, i + 1);
    AllNonEmptySlice(kws, i, i + 1);
    PrefixSnoc(kws, i);
    StripKeywordsAppend(s, kws[..i], [kws[i]]);
    StripKeywordsOne(StripKeywords(s, kws[..i]), kws[i]);
  }

  lemma StripKeywordsOne(s: string, k: string)
    requires k != []
    ensures StripKeywords(s, [k]) == Strip(DeleteAll(s, k))
  {
    assert [k][1..] == [];
  }

  /** The keyword loop of `_extract_drawing_description`. */
  method DeleteKeywords(message: string, keywords: seq<string>) returns (description: string)
    requires AllNonEmpty(keywords)
    ensures description == StripKeywords(message, keywords)
  {
    description := message;
    for i := 0 to |keywords|
      invariant description == StripKeywords(message, keywords[..i])
    {
      StripKeywordsSnoc(message, keywords, i);
      description := Strip(DeleteAll(description, keywords[i]));
    }
    WholePrefix(keywords);
  }

  /** `_extract_drawing_description`: the keyword loop, then punctuation
      removal and a final strip. */
  method ExtractDrawingDescription(message: string) returns (description: string)
    ensures description == DescriptionOf(message)
  {
    KeywordFacts();
    description := DeleteKeywords(message, Keywords);
    description := Strip(DropPunctuation(description));
  }

  /** A character absent from the input stays absent through the keyword
      loop. */
  lemma StripKeywordsKeepsAbsent(s: string, kws: seq<string>, c: char)
    requires AllNonEmpty(kws) && c !in s
    ensures c !in StripKeywords(s, kws)
  {
  }

  /** One step of the keyword loop, as the loop takes it. */
  lemma StripKeywordsFirst(s: string, kws: seq<string>)
    requires AllNonEmpty(kws) && kws != []
    ensures AllNonEmpty(kws[1..])
    ensures StripKeywords(s, kws) == StripKeywords(Strip(DeleteAll(s, kws[0])), kws[1..])
  {
    AllNonEmptySlice(kws, 1, |kws|);
  }

  /** Deleting a one-character keyword and stripping leaves no such
      character. */
  lemma StepRemoves(s: string, c: char)
    ensures c !in Strip(DeleteAll(s, [c]))
  {
    DeleteAllChar(s, c);
  }

  /** A keyword step only deletes characters. */
  lemma StepKeepsAbsent(s: string, k: string, c: char)
    requires k != [] && c !in s
    ensures c !in Strip(DeleteAll(s, k))
  {
  }

  /** A keyword list that starts with "画" and "绘" leaves neither. */
  lemma DeletesDrawCharacters(message: string, kws: seq<string>)
    requires AllNonEmpty(kws) && |kws| >= 2 && kws[0] == "画" && kws[1] == "绘"
    ensures '画' !in StripKeywords(message, kws) && '绘' !in StripKeywords(message, kws)
  {
    StripKeywordsFirst(message, kws);
    var s1 := Strip(DeleteAll(message, kws[0]));
    StepRemoves(message, '画');
    var rest := kws[1..];
    StripKeywordsFirst(s1, rest);
    var s2 := Strip(DeleteAll(s1, rest[0]));
    StepRemoves(s1, '绘');
    StepKeepsAbsent(s1, rest[0], '画');
    StripKeywordsKeepsAbsent(s2, rest[1..], '画');
    StripKeywordsKeepsAbsent(s2, rest[1..], '绘');
  }

  /** The description never contains "画" or "绘": both are deleted first,
      and later steps only delete characters. */
  lemma NoDrawCharacters(message: string)
    ensures '画' !in DescriptionOf(message) && '绘' !in DescriptionOf(message)
  {
    KeywordFacts();
    DeletesDrawCharacters(message, Keywords);
  }

  /** Keywords that begin with a character the text no longer has, applied
      to text without edge whitespace, change nothing. */
  lemma {:induction false} AbsentKeywordsNoOp(s: string, kws: seq<string>, c: char)
    requires AllNonEmpty(kws) && NoEdgeSpace(s) && c !in s
    requires forall i :: 0 <= i < |kws| ==> kws[i][0] == c
    ensures StripKeywords(s, kws) == s
    decreases |kws|
  {
    if kws != [] {
      DeleteAllAbsent(s, kws[0]);
      StripNoEdge(s);
      AbsentKeywordsNoOp(s, kws[1..], c);
    }
  }

  /** A keyword list that starts with "画" leaves no "画". */
  lemma DrawGoneAfter(message: string, head: seq<string>)
    requires AllNonEmpty(head) && head != [] && head[0] == "画"
    ensures '画' !in StripKeywords(message, head)
  {
    StripKeywordsFirst(message, head);
    StepRemoves(message, '画');
    StripKeywordsKeepsAbsent(Strip(DeleteAll(message, head[0])), head[1..], '画');
  }

  /** Once "画" has been deleted, later keywords that begin with it are
      no-ops. */
  lemma LaterKeywordsNoOp(message: string, head: seq<string>, tail: seq<string>)
    requires AllNonEmpty(head) && AllNonEmpty(tail) && head != [] && head[0] == "画"
    requires forall i :: 0 <= i < |tail| ==> tail[i][0] == '画'
    ensures AllNonEmpty(head + tail)
    ensures StripKeywords(message, head + tail) == StripKeywords(message, head)
  {
    StripKeywordsAppend(message, head, tail);
    DrawGoneAfter(message, head);
    AbsentKeywordsNoOp(StripKeywords(message, head), tail, '画');
  }

  /** "画个", "画一张" and "画一下" never change the result: "画" is
      already gone by the time they are tried. */
  lemma LaterDrawKeywordsAreNoOps(message: string)
    ensures StripKeywords(message, Keywords) == StripKeywords(message, Keywords[..7])
  {
    KeywordFacts();
    var head, tail := Keywords[..7], Keywords[7..];
    AllNonEmptySlice(Keywords, 0, 7);
    AllNonEmptySlice(Keywords, 7, 10);
    forall i | 0 <= i < |tail| ensures tail[i][0] == '画' {
      assert tail[i] == Keywords[7 + i];
    }
    LaterKeywordsNoOp(message, head, tail);
    SplitAt(Keywords, 7);
  }

  /** The description `on_message` asks the service to draw, given whether
      the message matched one of the drawing patterns: nothing for an
      unconfigured key or the bot's own message; otherwise the extracted
      description, or the fallback when that is empty. */
  function DrawPrompt(apiKey: string, isSelf: bool, rawMessage: string, isDrawingRequest: bool): (r: Option<string>)
    ensures r.Some? <==> apiKey != [] && !isSelf && isDrawingRequest
    ensures r.Some? ==> r.value != []
    ensures r.Some? && DescriptionOf(Strip(rawMessage)) != [] ==> r.value == DescriptionOf(Strip(rawMessage))
    ensures r.Some? && DescriptionOf(Strip(rawMessage)) == [] ==> r.value == DefaultDescription
  {
    if apiKey == [] || isSelf then None
    else
      var message := Strip(rawMessage);
      if !isDrawingRequest then None
      else
        var description := DescriptionOf(message);
        Some(if description == [] then DefaultDescription else description)
  }

  /** A setting read from the configuration, overridden by a non-empty
      environment variable. */
  function EffectiveSetting(configured: string, env: Option<string>): (r: string)
    ensures env.Some? && env.value != [] ==> r == env.value
    ensures env.None? || env.value == [] ==> r == configured
  {
    match env
    case Some(v) => if v != [] then v else configured
    case None => configured
  }

  // ---------------------------------------------------------------------
  // Image URL check

  const ImageExtensions: seq<string> := [".jpg", ".jpeg", ".png", ".gif", ".webp"]

  /** `_validate_image_url`. */
  predicate ValidImageUrl(url: string) {
    exists i :: 0 <= i < |ImageExtensions| && EndsWith(Lower(url), ImageExtensions[i])
  }

  lemma LowerUpper(s: string)
    ensures Lower(Upper(s)) == Lower(s)
  {
  }

  /** The check ignores letter case: two URLs equal up to case are both
      accepted or both rejected. */
  lemma ValidImageUrlIgnoresCase(u: string, v: string)
    requires Lower(u) == Lower(v)
    ensures ValidImageUrl(u) <==> ValidImageUrl(v)
  {
  }

  /** Every listed extension, in any case, is accepted after any stem. */
  lemma ValidImageUrlAccepts(stem: string, i: int)
    requires 0 <= i < |ImageExtensions|
    ensures ValidImageUrl(stem + ImageExtensions[i])
    ensures ValidImageUrl(Upper(stem + ImageExtensions[i]))
  {
    var u := stem + ImageExtensions[i];
    var ext := ImageExtensions[i];
    assert forall j :: 0 <= j < |ext| ==> LowerChar(ext[j]) == ext[j];
    assert Lower(u)[|u| - |ext|..] == ext;
    LowerUpper(u);
    ValidImageUrlIgnoresCase(Upper(u), u);
  }

  /** A URL whose lower-cased form ends with none of the extensions is
      rejected; an ".svg" image is one. */
  lemma ValidImageUrlRejectsSvg(stem: string)
    ensures !ValidImageUrl(stem + ".svg")
  {
    var u := stem + ".svg";
    var l := Lower(u);
    assert l[|l| - 1] == 'g' && l[|l| - 2] == 'v' && l[|l| - 3] == 's';
  }
}
