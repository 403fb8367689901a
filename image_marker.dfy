/** The text format by which a tool hands an image to the agent loop: the
    file tools write `[IMAGE_BASE64:{mime}:{base64}]` followed by a newline and
    a caption, and the agent parses it back (`ExtractImageData`) and turns
    every tool result into the parts of the function turn
    (`BuildToolResponseParts`). */
module ImageMarker {
  import opened Text
  import opened Json
  import opened Transcript

  const Prefix: string := "[IMAGE_BASE64:"

  /** The marker text without its brackets starts with this tag. */
  const Tag: string := "IMAGE_BASE64"

  /** The caption used when nothing follows the closing bracket. */
  const DefaultCaption: string := "圖片已讀取"

  /** The text a file tool returns for an image. */
  function Emit(mimeType: string, base64: string, caption: string): string {
    Prefix + mimeType + ":" + base64 + "]\n" + caption
  }

  /** `ExtractImageData`: the MIME type and payload of a result that starts
      with the prefix, has a closing bracket, and whose bracketed text splits
      into three `:`-pieces; the last piece keeps any further colons. */
  function Extract(result: string): (r: Option<(string, string)>)
    ensures r.Some? ==> StartsWith(result, Prefix + r.value.0 + ":" + r.value.1 + "]")
    ensures r.Some? ==> ':' !in r.value.0 && ']' !in r.value.0 && ']' !in r.value.1
  {
    if !StartsWith(result, Prefix) then None
    else
      var close := IndexOfChar(result, ']');
      if close <= 0 then None
      else
        var pieces := SplitN(result[1..close], ':', 3);
        if |pieces| != 3 then None
        else
          MarkerSplit(result, close);
          Some((pieces[1], pieces[2]))
  }

  /** The bracketed text of a result that starts with the prefix is the tag,
      a colon and the rest up to the first `]`; three pieces mean a second
      colon, and the result then starts with the prefix, the MIME type, a colon,
      the payload and the bracket. */
  lemma MarkerSplit(result: string, close: int)
    requires StartsWith(result, Prefix) && close == IndexOfChar(result, ']') && close > 0
    ensures var pieces := SplitN(result[1..close], ':', 3);
      |pieces| == 3 ==>
        StartsWith(result, Prefix + pieces[1] + ":" + pieces[2] + "]")
        && ':' !in pieces[1] && ']' !in pieces[1] && ']' !in pieces[2]
  {
    CloseAfterPrefix(result, close);
    var rest := result[|Prefix|..close];
    TagPiece(result, close);
    var pieces := SplitN(result[1..close], ':', 3);
    if |pieces| == 3 {
      RestPieces(result, close);
      SplitTwo(rest);
      PrefixedMarker(result, close, pieces[1], pieces[2]);
    }
  }

  /** The bracketed text splits off the tag first. */
  lemma TagPiece(result: string, close: int)
    requires StartsWith(result, Prefix) && |Prefix| <= close <= |result|
    ensures SplitN(result[1..close], ':', 3) == [Tag] + SplitN(result[|Prefix|..close], ':', 2)
  {
    var rest := result[|Prefix|..close];
    var marker := result[1..close];
    assert result[1..|Prefix|] == Tag + ":";
    assert marker == Tag + (":" + rest);
    IndexAfterFree(Tag, ":" + rest, ':');
    assert marker[|Tag| + 1..] == rest;
  }

  /** Before the first `]` there is none. */
  lemma RestPieces(result: string, close: int)
    requires |Prefix| <= close && close == IndexOfChar(result, ']')
    ensures ']' !in result[|Prefix|..close]
  {
    var rest := result[|Prefix|..close];
    assert forall k :: 0 <= k < |rest| ==> rest[k] == result[..close][|Prefix| + k];
  }

  /** Two pieces of a split at most in two are the text around its first separator. */
  lemma SplitTwo(rest: string)
    ensures var pieces := SplitN(rest, ':', 2);
      |pieces| == 2 ==> rest == pieces[0] + ":" + pieces[1] && ':' !in pieces[0]
  {
    var j := IndexOfChar(rest, ':');
    if j >= 0 {
      assert SplitN(rest[j + 1..], ':', 1) == [rest[j + 1..]];
      assert SplitN(rest, ':', 2) == [rest[..j], rest[j + 1..]];
      assert rest == rest[..j] + ":" + rest[j + 1..];
    }
  }

  /** The first `]` of a result that starts with the prefix lies after it. */
  lemma CloseAfterPrefix(result: string, close: int)
    requires StartsWith(result, Prefix) && close == IndexOfChar(result, ']') && close >= 0
    ensures |Prefix| <= close
  {
    forall i | 0 <= i < |Prefix|
      ensures result[i] != ']'
    {
      assert result[i] == Prefix[i];
    }
  }

  /** A result whose text between the prefix and its `]` is `a:b` starts with
      the prefix, `a:b` and the bracket. */
  lemma PrefixedMarker(result: string, close: int, a: string, b: string)
    requires StartsWith(result, Prefix) && |Prefix| <= close < |result| && result[close] == ']'
    requires result[|Prefix|..close] == a + ":" + b
    ensures StartsWith(result, Prefix + a + ":" + b + "]")
  {
    var w := Prefix + a + ":" + b + "]";
    assert |w| == close + 1;
    forall i | 0 <= i < |w|
      ensures w[i] == result[i]
    {
      if i < |Prefix| {
        assert w[i] == Prefix[i];
      } else if i < close {
        assert w[i] == (a + ":" + b)[i - |Prefix|];
        assert result[|Prefix|..close][i - |Prefix|] == result[i];
      }
    }
    assert w == result[..|w|];
  }

  /** Whatever the caption, the marker a file tool writes parses back to the
      MIME type and payload it was built from. */
  lemma ExtractEmit(mimeType: string, base64: string, caption: string)
    requires ':' !in mimeType && ']' !in mimeType && ']' !in base64
    ensures Extract(Emit(mimeType, base64, caption)) == Some((mimeType, base64))
  {
    EmitClose(mimeType, base64, caption);
    var result := Emit(mimeType, base64, caption);
    var close := IndexOfChar(result, ']');
    assert ':' !in Tag;
    SplitThree(Tag, mimeType, base64, ':');
  }

  /** In an emitted marker the first `]` closes the bracket, and the text
      inside is the tag, the MIME type and the payload. */
  lemma EmitClose(mimeType: string, base64: string, caption: string)
    requires ']' !in mimeType && ']' !in base64
    ensures var result := Emit(mimeType, base64, caption);
      var close := IndexOfChar(result, ']');
      StartsWith(result, Prefix) && close == |Prefix| + |mimeType| + 1 + |base64|
      && result[1..close] == Tag + [':'] + mimeType + [':'] + base64
  {
    var head := Prefix + mimeType + ":" + base64;
    EmitSplit(mimeType, base64, caption);
    HeadHasNoClose(mimeType, base64);
    IndexAfterFree(head, "]\n" + caption, ']');
    HeadInside(mimeType, base64);
  }

  lemma EmitSplit(mimeType: string, base64: string, caption: string)
    ensures Emit(mimeType, base64, caption) == (Prefix + mimeType + ":" + base64) + ("]\n" + caption)
    ensures StartsWith(Emit(mimeType, base64, caption), Prefix)
  {
    var result := Emit(mimeType, base64, caption);
    assert result[..|Prefix|] == Prefix;
  }

  lemma HeadInside(mimeType: string, base64: string)
    ensures var head := Prefix + mimeType + ":" + base64;
      head[1..] == Tag + [':'] + mimeType + [':'] + base64
  {
  }

  lemma HeadHasNoClose(mimeType: string, base64: string)
    requires ']' !in mimeType && ']' !in base64
    ensures ']' !in Prefix + mimeType + ":" + base64
  {
    var head := Prefix + mimeType + ":" + base64;
    assert forall i :: 0 <= i < |head| ==> head[i] in Prefix || head[i] in mimeType || head[i] == ':' || head[i] in base64;
  }

  /** The caption of an image result: the trimmed text after the first `]`,
      or the default caption when nothing follows it. */
  function Caption(result: string): string
    requires Extract(result).Some?
  {
    var close := IndexOfChar(result, ']');
    if close + 1 < |result| then Trim(result[close + 1..]) else DefaultCaption
  }

  /** The `content` of the single function-response part for a tool result:
      a caption sentence for an image, the result itself otherwise, so the raw
      marker never reaches the model. */
  function ResponseContent(result: string): (content: string)
    ensures content == result <==> Extract(result).None?
  {
    if Extract(result).Some? then
      var content := "圖片已成功讀取。" + Caption(result) + "。請看下方圖片內容。";
      assert content[0] == '圖' && result[0] == '[';
      content
    else result
  }

  /** `BuildToolResponseParts`: exactly one function-response part naming the
      tool, whatever the result. */
  function BuildToolResponseParts(name: string, result: string): (parts: seq<Part>)
    ensures |parts| == 1 && parts[0].ResponsePart? && parts[0].name == name
    ensures parts[0].content == ResponseContent(result)
  {
    [ResponsePart(name, ResponseContent(result))]
  }
}
