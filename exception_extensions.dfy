/** ExceptionExtensions: flattening an exception chain into a CustomError tree,
    and finding the innermost message. */
module ExceptionExtensions {
  import opened Common
  import opened Events
  import opened CustomErrors

  /** The links of the InnerException chain, outermost first. */
  function Links(ex: Exception): (r: seq<Exception>)
    ensures |r| >= 1 && r[0] == ex
    decreases ex
  {
    if ex.inner.None? then [ex] else [ex] + Links(ex.inner.value)
  }

  /** The Data entries the foreach keeps: one per item whose value is not null,
      in enumeration order. */
  function DataEntries(data: seq<DataItem>): (r: seq<CustomDictEntry>)
    ensures |r| <= |data|
    ensures forall j :: 0 <= j < |r| ==> r[j].key.Some? && r[j].value.Some?
    decreases |data|
  {
    if |data| == 0 then []
    else
      var last := data[|data| - 1];
      DataEntries(data[..|data| - 1])
      + (if last.value.Some? then [CustomDictEntry(Some(last.key), last.value)] else [])
  }

  /** The number of items whose value is not null. */
  function NonNullCount(data: seq<DataItem>): nat
    decreases |data|
  {
    if |data| == 0 then 0
    else NonNullCount(data[..|data| - 1]) + (if data[|data| - 1].value.Some? then 1 else 0)
  }

  /** Exactly the non-null items survive, each once, keeping key and value. */
  lemma {:induction false} DataEntriesKeepNonNull(data: seq<DataItem>)
    ensures |DataEntries(data)| == NonNullCount(data)
    ensures forall key: string, v: string ::
      CustomDictEntry(Some(key), Some(v)) in DataEntries(data) <==> DataItem(key, Some(v)) in data
    decreases |data|
  {
    if |data| > 0 {
      var init := data[..|data| - 1];
      DataEntriesKeepNonNull(init);
      assert data == init + [data[|data| - 1]];
      forall key: string, v: string
        ensures CustomDictEntry(Some(key), Some(v)) in DataEntries(data) <==> DataItem(key, Some(v)) in data
      {
        assert DataItem(key, Some(v)) in data <==> DataItem(key, Some(v)) in init || data[|data| - 1] == DataItem(key, Some(v));
      }
    }
  }

  /** The entries keep the enumeration order of Data: the entries of a
      concatenation are the entries of each part, one after the other. */
  lemma {:induction false} DataEntriesAppend(a: seq<DataItem>, b: seq<DataItem>)
    ensures DataEntries(a + b) == DataEntries(a) + DataEntries(b)
    decreases |b|
  {
    if |b| == 0 {
      assert a + b == a;
    } else {
      var init := b[..|b| - 1];
      assert (a + b)[..|a + b| - 1] == a + init;
      assert (a + b)[|a + b| - 1] == b[|b| - 1];
      DataEntriesAppend(a, init);
    }
  }

  /** The tree node ToCustomError builds for one link, given its inner node. */
  function NodeFor(ex: Exception, inner: Option<CustomError>): CustomError {
    CustomError(
      exceptionType := Some(ex.typeName),
      moduleName := if ex.targetSite.Some? then Some(ex.targetSite.value.moduleName) else None,
      declaringTypeName := if ex.targetSite.Some? then ex.targetSite.value.declaringTypeName else None,
      targetSiteName := if ex.targetSite.Some? then Some(ex.targetSite.value.name) else None,
      message := Some(ex.message),
      stackTrace := ex.stackTrace,
      data := Some(DataEntries(ex.data)),
      innerError := inner)
  }

  /** The tree ToCustomError returns: one node per link, every Data list present. */
  function Flatten(ex: Exception): (r: CustomError)
    ensures |Nodes(r)| == |Links(ex)|
    ensures !AnyNullData(r)
    decreases ex
  {
    NodeFor(ex, if ex.inner.None? then None else Some(Flatten(ex.inner.value)))
  }

  /** What one tree node takes from its own link (and nothing from any other). */
  ghost predicate CopiedFrom(node: CustomError, link: Exception) {
    && node.exceptionType == Some(link.typeName)
    && node.message == Some(link.message)
    && node.stackTrace == link.stackTrace
    && (link.targetSite.None? ==>
          node.moduleName.None? && node.declaringTypeName.None? && node.targetSiteName.None?)
    && (link.targetSite.Some? ==>
          && node.moduleName == Some(link.targetSite.value.moduleName)
          && node.declaringTypeName == link.targetSite.value.declaringTypeName
          && node.targetSiteName == Some(link.targetSite.value.name))
    && node.data == Some(DataEntries(link.data))
    && (node.innerError.None? <==> link.inner.None?)
  }

  /** One node per link, outermost first, each copied from its own link. */
  lemma {:induction false} FlattenOneNodePerLink(ex: Exception)
    ensures |Nodes(Flatten(ex))| == |Links(ex)|
    ensures forall k :: 0 <= k < |Links(ex)| ==> CopiedFrom(Nodes(Flatten(ex))[k], Links(ex)[k])
    decreases ex
  {
    if ex.inner.Some? {
      FlattenOneNodePerLink(ex.inner.value);
      assert Nodes(Flatten(ex)) == [Flatten(ex)] + Nodes(Flatten(ex.inner.value));
      assert Links(ex) == [ex] + Links(ex.inner.value);
    }
  }

  /** Every node of a flattened tree has a non-null Data list, so rendering it never throws. */
  lemma FlattenedRendersWithoutFault(ex: Exception, prefix: string, acc: string)
    ensures !Render(Flatten(ex), prefix, acc).failed
  {
    RenderFailsIffAnyNullData(Flatten(ex), prefix, acc);
  }

  /** ExceptionExtensions.ToCustomError. */
  method ToCustomError(ex: Exception) returns (r: CustomError)
    ensures r == Flatten(ex)
    decreases ex
  {
    r := CustomError(
      exceptionType := Some(ex.typeName),
      moduleName := None,
      declaringTypeName := None,
      targetSiteName := None,
      message := Some(ex.message),
      stackTrace := ex.stackTrace,
      data := Some([]),
      innerError := None);
    var ts := ex.targetSite;
    if ts.Some? {
      r := r.(moduleName := Some(ts.value.moduleName),
              declaringTypeName := ts.value.declaringTypeName,
              targetSiteName := Some(ts.value.name));
    }

    var data: seq<CustomDictEntry> := r.data.value;
    var i := 0;
    while i < |ex.data|
      invariant 0 <= i <= |ex.data|
      invariant data == DataEntries(ex.data[..i])
    {
      var item := ex.data[i];
      if item.value.Some? {
        data := data + [CustomDictEntry(Some(item.key), item.value)];
      }
      assert ex.data[..i + 1][..i] == ex.data[..i];
      i := i + 1;
    }
    assert ex.data[..|ex.data|] == ex.data;
    r := r.(data := Some(data));

    if ex.inner.Some? {
      var innerError := ToCustomError(ex.inner.value);
      r := r.(innerError := Some(innerError));
    }
  }

  /** The deepest link of the InnerException chain. */
  function Innermost(ex: Exception): (r: Exception)
    ensures r.inner.None?
    decreases ex
  {
    if ex.inner.None? then ex else Innermost(ex.inner.value)
  }

  /** The deepest link is the last of the links. */
  lemma {:induction false} InnermostIsLastLink(ex: Exception)
    ensures Innermost(ex) == Links(ex)[|Links(ex)| - 1]
    decreases ex
  {
    if ex.inner.Some? {
      InnermostIsLastLink(ex.inner.value);
      assert Links(ex) == [ex] + Links(ex.inner.value);
    }
  }

  /** ExceptionExtensions.InnermostMessage: the message of the deepest link. */
  method InnermostMessage(e: Exception) returns (m: string)
    ensures m == Innermost(e).message
    ensures m == Links(e)[|Links(e)| - 1].message
    ensures e.inner.None? ==> m == e.message
  {
    InnermostIsLastLink(e);
    var cur := e;
    while true
      invariant Innermost(cur) == Innermost(e)
      decreases cur
    {
      if cur.inner.None? {
        return cur.message;
      }
      cur := cur.inner.value;
    }
  }

  /** The flat @exceptionMessage agrees with the tree: it is the Message of the
      node reached by following InnerError to its end. */
  lemma {:induction false} InnermostMessageIsDeepestNode(ex: Exception)
    ensures Deepest(Flatten(ex)).message == Some(Innermost(ex).message)
    ensures Deepest(Flatten(ex)).message == Some(Links(ex)[|Links(ex)| - 1].message)
    decreases ex
  {
    if ex.inner.Some? {
      InnermostMessageIsDeepestNode(ex.inner.value);
    }
    InnermostIsLastLink(ex);
  }
}
