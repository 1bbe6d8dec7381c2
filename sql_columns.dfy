/** GetSqlColumnOptions: the column layout of the SQL Server tables the
    performance and usage routes write to. */
module SqlColumns {
  import opened Common

  /** The sink's standard columns. */
  datatype StandardColumn = Id | Message | MessageTemplate | Level | TimeStamp | Exception | Properties | LogEvent

  datatype SqlDbType = NVarChar | Int

  /** A column added next to the standard ones; a None type or length leaves
      the sink's default in place. */
  datatype SqlColumn = SqlColumn(
    columnName: string,
    allowNull: bool,
    dataType: Option<SqlDbType>,
    dataLength: Option<int>,
    nonClusteredIndex: bool)

  /** new SqlColumn { ColumnName = name }: nullable, default type, no index. */
  function NamedColumn(columnName: string): SqlColumn {
    SqlColumn(columnName, true, None, None, false)
  }

  /** The standard columns a new ColumnOptions stores. */
  const DefaultStore: seq<StandardColumn> := [Id, Message, MessageTemplate, Level, TimeStamp, Exception, Properties]

  /** List.Remove: drops the first occurrence, if there is one. */
  function RemoveFirst(s: seq<StandardColumn>, c: StandardColumn): (r: seq<StandardColumn>)
    ensures c !in s ==> r == s
    ensures c in s ==> |r| == |s| - 1
    decreases |s|
  {
    if |s| == 0 then []
    else
      assert s == [s[0]] + s[1..];
      if s[0] == c then s[1..]
      else [s[0]] + RemoveFirst(s[1..], c)
  }

  /** RemoveFirst takes out one copy of c and nothing else. */
  lemma {:induction false} RemoveFirstMultiset(s: seq<StandardColumn>, c: StandardColumn)
    ensures multiset(RemoveFirst(s, c)) == multiset(s) - multiset{c}
    decreases |s|
  {
    if |s| > 0 {
      assert s == [s[0]] + s[1..];
      if s[0] != c {
        RemoveFirstMultiset(s[1..], c);
      }
    }
  }

  /** RemoveFirst keeps a head that differs from c and goes on with the tail. */
  lemma RemoveFirstPast(x: StandardColumn, t: seq<StandardColumn>, c: StandardColumn)
    requires x != c
    ensures RemoveFirst([x] + t, c) == [x] + RemoveFirst(t, c)
  {
    assert ([x] + t)[1..] == t;
  }

  /** RemoveFirst stops at a head equal to c and drops it. */
  lemma RemoveFirstAt(c: StandardColumn, t: seq<StandardColumn>)
    ensures RemoveFirst([c] + t, c) == t
  {
    assert ([c] + t)[1..] == t;
  }

  /** RemoveFirst takes out the first occurrence and keeps everything else in order. */
  lemma {:induction false} RemoveFirstKeepsOrder(before: seq<StandardColumn>, c: StandardColumn, after: seq<StandardColumn>)
    requires c !in before
    ensures RemoveFirst(before + [c] + after, c) == before + after
    decreases |before|
  {
    if |before| > 0 {
      var rest := before[1..];
      assert before == [before[0]] + rest;
      assert before + [c] + after == [before[0]] + (rest + [c] + after);
      RemoveFirstKeepsOrder(rest, c, after);
      RemoveFirstPast(before[0], rest + [c] + after, c);
      assert before + after == [before[0]] + (rest + after);
    } else {
      assert before + [c] + after == [c] + after;
      RemoveFirstAt(c, after);
    }
  }

  /** The five removals GetSqlColumnOptions makes leave Id and TimeStamp, in that order. */
  lemma PerfStoreRemovals()
    ensures RemoveFirst(RemoveFirst(RemoveFirst(RemoveFirst(RemoveFirst(
              DefaultStore, Message), MessageTemplate), Level), Exception), Properties)
         == [Id, TimeStamp]
  {
    RemoveMessage();
    RemoveMessageTemplate();
    RemoveLevel();
    RemoveException();
    RemoveProperties();
  }

  // One lemma per removal keeps each unfolding of RemoveFirst on a literal small.

  lemma RemoveMessage()
    ensures RemoveFirst(DefaultStore, Message) == [Id, MessageTemplate, Level, TimeStamp, Exception, Properties]
  {
  }

  lemma RemoveMessageTemplate()
    ensures RemoveFirst([Id, MessageTemplate, Level, TimeStamp, Exception, Properties], MessageTemplate)
         == [Id, Level, TimeStamp, Exception, Properties]
  {
  }

  lemma RemoveLevel()
    ensures RemoveFirst([Id, Level, TimeStamp, Exception, Properties], Level) == [Id, TimeStamp, Exception, Properties]
  {
  }

  lemma RemoveException()
    ensures RemoveFirst([Id, TimeStamp, Exception, Properties], Exception) == [Id, TimeStamp, Properties]
  {
  }

  lemma RemoveProperties()
    ensures RemoveFirst([Id, TimeStamp, Properties], Properties) == [Id, TimeStamp]
  {
  }

  class ColumnOptions {
    var store: seq<StandardColumn>
    var additionalColumns: Option<seq<SqlColumn>>
    /** options.LogEvent.ExcludeStandardColumns / ExcludeAdditionalProperties. */
    var logEventExcludeStandardColumns: bool
    var logEventExcludeAdditionalProperties: bool

    constructor ()
      ensures store == DefaultStore && additionalColumns.None?
      ensures !logEventExcludeStandardColumns && !logEventExcludeAdditionalProperties
    {
      store := DefaultStore;
      additionalColumns := None;
      logEventExcludeStandardColumns := false;
      logEventExcludeAdditionalProperties := false;
    }

    method Remove(c: StandardColumn)
      modifies this
      ensures store == RemoveFirst(old(store), c)
      ensures additionalColumns == old(additionalColumns)
      ensures logEventExcludeStandardColumns == old(logEventExcludeStandardColumns)
      ensures logEventExcludeAdditionalProperties == old(logEventExcludeAdditionalProperties)
    {
      store := RemoveFirst(store, c);
    }

    method Add(c: StandardColumn)
      modifies this
      ensures store == old(store) + [c]
      ensures additionalColumns == old(additionalColumns)
      ensures logEventExcludeStandardColumns == old(logEventExcludeStandardColumns)
      ensures logEventExcludeAdditionalProperties == old(logEventExcludeAdditionalProperties)
    {
      store := store + [c];
    }
  }

  /** The performance table's extra columns. */
  const PerfColumns: seq<SqlColumn> := [
    SqlColumn("PerfItem", false, Some(NVarChar), Some(100), true),
    SqlColumn("ElapsedMilliseconds", false, Some(Int), None, false),
    NamedColumn("ActionName").(allowNull := false),
    NamedColumn("MachineName").(allowNull := false)
  ]

  /** Every extra column is NOT NULL, and only PerfItem is indexed. */
  lemma PerfColumnsNotNull()
    ensures forall k :: 0 <= k < |PerfColumns| ==> !PerfColumns[k].allowNull
    ensures forall k :: 0 <= k < |PerfColumns| ==>
      (PerfColumns[k].nonClusteredIndex <==> PerfColumns[k].columnName == "PerfItem")
  {
    assert "ElapsedMilliseconds"[0] != "PerfItem"[0];
    assert "ActionName"[0] != "PerfItem"[0];
    assert "MachineName"[0] != "PerfItem"[0];
  }

  /** The Store edits of GetSqlColumnOptions: five removals, then LogEvent added. */
  method StoreLogEventOnly(options: ColumnOptions)
    requires options.store == DefaultStore
    modifies options
    ensures options.store == [Id, TimeStamp, LogEvent]
    ensures options.additionalColumns == old(options.additionalColumns)
    ensures options.logEventExcludeStandardColumns == old(options.logEventExcludeStandardColumns)
    ensures options.logEventExcludeAdditionalProperties == old(options.logEventExcludeAdditionalProperties)
  {
    options.Remove(Message);
    options.Remove(MessageTemplate);
    options.Remove(Level);
    options.Remove(Exception);
    options.Remove(Properties);
    PerfStoreRemovals();
    options.Add(LogEvent);
  }

  /** The performance table: only Id, TimeStamp and the LogEvent JSON among the
      standard columns; the LogEvent JSON leaves out what has its own column. */
  method GetSqlColumnOptions() returns (options: ColumnOptions)
    ensures fresh(options)
    ensures options.store == [Id, TimeStamp, LogEvent]
    ensures options.logEventExcludeStandardColumns && options.logEventExcludeAdditionalProperties
    ensures options.additionalColumns == Some(PerfColumns)
  {
    options := new ColumnOptions();
    StoreLogEventOnly(options);
    options.logEventExcludeStandardColumns := true;
    options.logEventExcludeAdditionalProperties := true;
    options.additionalColumns := Some(PerfColumns);
  }

  /** The usage table keeps the sink's defaults. */
  method GetDefaultSqlColumnOptions() returns (options: ColumnOptions)
    ensures fresh(options)
    ensures options.store == DefaultStore && options.additionalColumns.None?
    ensures !options.logEventExcludeStandardColumns && !options.logEventExcludeAdditionalProperties
  {
    options := new ColumnOptions();
  }
}
