/** The serialisable exception tree (CustomError, CustomDictEntry) and its text
    rendering, which appends every level into one shared StringBuilder. */
module CustomErrors {
  import opened Common

  /** One rendered Exception.Data entry. */
  datatype CustomDictEntry = CustomDictEntry(key: Option<string>, value: Option<string>)

  /** One node of the flattened exception tree. Every member is a settable
      property in the source, so each may be null. */
  datatype CustomError = CustomError(
    exceptionType: Option<string>,
    moduleName: Option<string>,
    declaringTypeName: Option<string>,
    targetSiteName: Option<string>,
    message: Option<string>,
    stackTrace: Option<string>,
    data: Option<seq<CustomDictEntry>>,
    innerError: Option<CustomError>)

  /** The nodes reached by following InnerError, outermost first. */
  function Nodes(err: CustomError): (r: seq<CustomError>)
    ensures |r| >= 1 && r[0] == err
    decreases err
  {
    if err.innerError.None? then [err] else [err] + Nodes(err.innerError.value)
  }

  /** The deepest node of the tree. */
  function Deepest(err: CustomError): CustomError
    decreases err
  {
    if err.innerError.None? then err else Deepest(err.innerError.value)
  }

  lemma {:induction false} DeepestIsLastNode(err: CustomError)
    ensures Deepest(err) == Nodes(err)[|Nodes(err)| - 1]
    decreases err
  {
    if err.innerError.Some? {
      DeepestIsLastNode(err.innerError.value);
    }
  }

  /** Environment.NewLine, as StringBuilder.AppendLine terminates each line. */
  const NewLine: string := "\n"

  function Line(s: string): string {
    s + NewLine
  }

  /** The five lines every level starts with, in the order the source writes them. */
  function HeaderLines(err: CustomError, prefix: string): string {
    Line(prefix + "ExceptionType: " + Interpolate(err.exceptionType))
    + Line(prefix + "Message: " + Interpolate(err.message))
    + Line(prefix + "ModuleName: " + Interpolate(err.moduleName))
    + Line(prefix + "DeclaringTypeName: " + Interpolate(err.declaringTypeName))
    + Line(prefix + "TargetSiteName: " + Interpolate(err.targetSiteName))
  }

  function DataLine(entry: CustomDictEntry, prefix: string): string {
    Line(prefix + "Data-" + Interpolate(entry.key) + ": " + Interpolate(entry.value))
  }

  /** One `Data-{Key}: {Value}` line per entry, in list order. */
  function DataLines(entries: seq<CustomDictEntry>, prefix: string): string
    decreases |entries|
  {
    if |entries| == 0 then ""
    else DataLines(entries[..|entries| - 1], prefix) + DataLine(entries[|entries| - 1], prefix)
  }

  /** One more entry appends its own line. */
  lemma DataLinesStep(data: seq<CustomDictEntry>, i: nat, prefix: string)
    requires i < |data|
    ensures DataLines(data[..i + 1], prefix) == DataLines(data[..i], prefix) + DataLine(data[i], prefix)
  {
    assert data[..i + 1][..i] == data[..i];
  }

  lemma StringAssoc(a: string, b: string, c: string)
    ensures (a + b) + c == a + (b + c)
  {
  }

  function StackTraceLine(err: CustomError, prefix: string): string {
    Line(prefix + "StackTrace: " + Interpolate(err.stackTrace))
  }

  /** What is in the builder when rendering of a level stops, and whether it
      stopped by throwing (a null Data list dereferenced by the foreach). */
  datatype Rendering = Rendering(text: string, failed: bool)

  /** The builder's contents after WriteError(err, prefix) runs on a builder
      holding `acc`. The InnerError line embeds the inner call's return value,
      which is the WHOLE builder content at that point. */
  function Render(err: CustomError, prefix: string, acc: string): (r: Rendering)
    ensures acc <= r.text
    decreases err
  {
    var header := acc + HeaderLines(err, prefix);
    AppendExtends(acc, HeaderLines(err, prefix));
    if err.data.None? then Rendering(header, true)
    else
      var own := header + DataLines(err.data.value, prefix) + StackTraceLine(err, prefix);
      AppendExtends(header, DataLines(err.data.value, prefix));
      AppendExtends(header + DataLines(err.data.value, prefix), StackTraceLine(err, prefix));
      PrefixTransitive(acc, header, header + DataLines(err.data.value, prefix));
      PrefixTransitive(acc, header + DataLines(err.data.value, prefix), own);
      if err.innerError.None? then Rendering(own, false)
      else
        var inner := Render(err.innerError.value, prefix + "\t", own);
        PrefixTransitive(acc, own, inner.text);
        if inner.failed then inner
        else
          AppendExtends(inner.text, Line(prefix + "InnerError: " + inner.text));
          PrefixTransitive(acc, inner.text, inner.text + Line(prefix + "InnerError: " + inner.text));
          Rendering(inner.text + Line(prefix + "InnerError: " + inner.text), false)
  }

  /** Appending keeps what was there as a prefix. */
  lemma AppendExtends(a: string, b: string)
    ensures a <= a + b
  {
  }

  lemma PrefixTransitive(a: string, b: string, c: string)
    requires a <= b && b <= c
    ensures a <= c
  {
  }

  /** What WriteError returns, or the exception it raises. */
  function Returned(r: Rendering): Result<string> {
    if r.failed then Failure(NullReference) else Success(r.text)
  }

  /** Rendering only appends: the builder's earlier content and this level's
      five header lines are a prefix of the final content. */
  lemma {:induction false} RenderExtends(err: CustomError, prefix: string, acc: string)
    ensures acc + HeaderLines(err, prefix) <= Render(err, prefix, acc).text
    decreases err
  {
    var header := acc + HeaderLines(err, prefix);
    if err.data.Some? {
      var own := header + DataLines(err.data.value, prefix) + StackTraceLine(err, prefix);
      AppendExtends(header, DataLines(err.data.value, prefix));
      AppendExtends(header + DataLines(err.data.value, prefix), StackTraceLine(err, prefix));
      PrefixTransitive(header, header + DataLines(err.data.value, prefix), own);
      if err.innerError.Some? {
        RenderExtends(err.innerError.value, prefix + "\t", own);
        var inner := Render(err.innerError.value, prefix + "\t", own);
        PrefixTransitive(header, own, inner.text);
        if !inner.failed {
          AppendExtends(inner.text, Line(prefix + "InnerError: " + inner.text));
          PrefixTransitive(header, inner.text, Render(err, prefix, acc).text);
        }
      }
    }
  }

  /** When the level has a Data list, the header lines are followed by the data
      lines and then the StackTrace line, before anything an inner level writes. */
  lemma OwnLinesInOrder(err: CustomError, prefix: string, acc: string)
    requires err.data.Some?
    ensures acc + HeaderLines(err, prefix) + DataLines(err.data.value, prefix) + StackTraceLine(err, prefix)
            <= Render(err, prefix, acc).text
  {
    var own := acc + HeaderLines(err, prefix) + DataLines(err.data.value, prefix) + StackTraceLine(err, prefix);
    if err.innerError.Some? {
      RenderExtends(err.innerError.value, prefix + "\t", own);
      var inner := Render(err.innerError.value, prefix + "\t", own);
      assert own <= inner.text;
    }
  }

  /** Some level of the tree has a null Data list. */
  predicate AnyNullData(err: CustomError)
    decreases err
  {
    err.data.None? || (err.innerError.Some? && AnyNullData(err.innerError.value))
  }

  /** Rendering throws exactly when some level has a null Data list. */
  lemma {:induction false} RenderFailsIffAnyNullData(err: CustomError, prefix: string, acc: string)
    ensures Render(err, prefix, acc).failed == AnyNullData(err)
    decreases err
  {
    if err.data.Some? && err.innerError.Some? {
      var own := acc + HeaderLines(err, prefix) + DataLines(err.data.value, prefix) + StackTraceLine(err, prefix);
      RenderFailsIffAnyNullData(err.innerError.value, prefix + "\t", own);
    }
  }

  /** AnyNullData speaks of the nodes reached through InnerError. */
  lemma {:induction false} AnyNullDataIffSomeNode(err: CustomError)
    ensures AnyNullData(err) <==> exists n :: n in Nodes(err) && n.data.None?
    decreases err
  {
    if err.data.None? {
      assert err in Nodes(err);
    } else if err.innerError.Some? {
      AnyNullDataIffSomeNode(err.innerError.value);
      assert Nodes(err) == [err] + Nodes(err.innerError.value);
    } else {
      assert Nodes(err) == [err];
    }
  }

  /** Rendering throws exactly when some node of the tree has a null Data list. */
  lemma RenderFailsIffNullData(err: CustomError, prefix: string, acc: string)
    ensures Render(err, prefix, acc).failed <==> exists n :: n in Nodes(err) && n.data.None?
  {
    RenderFailsIffAnyNullData(err, prefix, acc);
    AnyNullDataIffSomeNode(err);
  }

  /** The InnerError line re-embeds everything written so far: the final
      content is some `t` followed by the line `{prefix}InnerError: {t}`, where
      `t` already holds this level's own lines followed by the inner level's
      header under the prefix extended by exactly one tab. */
  lemma InnerErrorReembedsBuilder(err: CustomError, prefix: string, acc: string)
    requires err.innerError.Some? && !Render(err, prefix, acc).failed
    ensures err.data.Some?
    ensures exists t ::
      && Render(err, prefix, acc).text == t + Line(prefix + "InnerError: " + t)
      && acc + HeaderLines(err, prefix) + DataLines(err.data.value, prefix) + StackTraceLine(err, prefix)
         + HeaderLines(err.innerError.value, prefix + "\t") <= t
  {
    var own := acc + HeaderLines(err, prefix) + DataLines(err.data.value, prefix) + StackTraceLine(err, prefix);
    var inner := Render(err.innerError.value, prefix + "\t", own);
    RenderExtends(err.innerError.value, prefix + "\t", own);
    assert own <= inner.text;
  }

  /** A single-level tree renders exactly its own lines. */
  lemma LeafRendering(err: CustomError, prefix: string, acc: string)
    requires err.data.Some? && err.innerError.None?
    ensures Render(err, prefix, acc)
         == Rendering(acc + HeaderLines(err, prefix) + DataLines(err.data.value, prefix) + StackTraceLine(err, prefix), false)
  {
  }

  /** System.Text.StringBuilder, reduced to what the renderer uses. */
  class StringBuilder {
    var contents: string

    constructor ()
      ensures contents == ""
    {
      contents := "";
    }

    method AppendLine(s: string)
      modifies this
      ensures contents == old(contents) + Line(s)
    {
      contents := contents + Line(s);
    }
  }

  /** The five header lines of one level. */
  method AppendHeader(err: CustomError, sb: StringBuilder, prefix: string)
    modifies sb
    ensures sb.contents == old(sb.contents) + HeaderLines(err, prefix)
  {
    sb.AppendLine(prefix + "ExceptionType: " + Interpolate(err.exceptionType));
    sb.AppendLine(prefix + "Message: " + Interpolate(err.message));
    sb.AppendLine(prefix + "ModuleName: " + Interpolate(err.moduleName));
    sb.AppendLine(prefix + "DeclaringTypeName: " + Interpolate(err.declaringTypeName));
    sb.AppendLine(prefix + "TargetSiteName: " + Interpolate(err.targetSiteName));
  }

  /** The foreach over a non-null Data list. */
  method AppendDataLines(data: seq<CustomDictEntry>, sb: StringBuilder, prefix: string)
    modifies sb
    ensures sb.contents == old(sb.contents) + DataLines(data, prefix)
  {
    var i := 0;
    while i < |data|
      invariant 0 <= i <= |data|
      invariant sb.contents == old(sb.contents) + DataLines(data[..i], prefix)
    {
      var item := data[i];
      sb.AppendLine(prefix + "Data-" + Interpolate(item.key) + ": " + Interpolate(item.value));
      DataLinesStep(data, i, prefix);
      StringAssoc(old(sb.contents), DataLines(data[..i], prefix), DataLine(data[i], prefix));
      i := i + 1;
    }
    assert data[..|data|] == data;
  }

  /** CustomError.WriteError: append this level's lines, then the inner level's
      (prefix extended by one tab), then the InnerError line; return the whole builder. */
  method WriteError(err: CustomError, sb: StringBuilder, prefix: string) returns (r: Result<string>)
    modifies sb
    ensures sb.contents == Render(err, prefix, old(sb.contents)).text
    ensures r == Returned(Render(err, prefix, old(sb.contents)))
    decreases err
  {
    ghost var acc := sb.contents;
    AppendHeader(err, sb, prefix);
    if err.data.None? {
      // the foreach dereferences the null list
      return Failure(NullReference);
    }
    AppendDataLines(err.data.value, sb, prefix);
    sb.AppendLine(prefix + "StackTrace: " + Interpolate(err.stackTrace));
    ghost var own := sb.contents;
    assert own == acc + HeaderLines(err, prefix) + DataLines(err.data.value, prefix) + StackTraceLine(err, prefix);
    if err.innerError.Some? {
      var inner := WriteError(err.innerError.value, sb, prefix + "\t");
      if inner.Failure? {
        return inner;
      }
      sb.AppendLine(prefix + "InnerError: " + inner.value);
    }
    r := Success(sb.contents);
  }

  /** CustomError.ToString: render with an empty prefix into a fresh builder. */
  method ToString(err: CustomError) returns (r: Result<string>)
    ensures r == Returned(Render(err, "", ""))
  {
    var sb := new StringBuilder();
    r := WriteError(err, sb, "");
  }
}
