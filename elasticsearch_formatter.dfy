/** CustomElasticsearchJsonFormatter: the overrides that sanitise field names,
    drop internal properties, hoist the HttpContext structure, wrap or inline
    the fields, and write exceptions as a tree plus a flat message. The
    DefaultJsonFormatter base class is not modelled: each of its writes is one
    token appended to the output. */
module ElasticsearchFormatter {
  import opened Common
  import opened Events
  import opened CustomErrors
  import opened ExceptionExtensions

  /** The `object value` handed to WriteJsonProperty and WriteLiteralValue. */
  datatype JsonValue =
    | PropertyValueOf(v: PropertyValue)
    | Text(s: string)
    | ErrorTree(err: CustomError)

  /** One write on the TextWriter. */
  datatype Token =
    | Raw(text: string)                                     // output.Write(text)
    | JsonProperty(name: string, value: JsonValue)          // base.WriteJsonProperty, after the current delimiter
    | JsonDictionary(entries: seq<(Scalar, PropertyValue)>) // base.WriteDictionary
    | Literal(value: JsonValue)                             // base.WriteLiteralValue

  /** The TextWriter, as the sequence of writes made on it. */
  class Output {
    var tokens: seq<Token>

    constructor ()
      ensures tokens == []
    {
      tokens := [];
    }

    method Append(t: Token)
      modifies this
      ensures tokens == old(tokens) + [t]
    {
      tokens := tokens + [t];
    }
  }

  // ---------------------------------------------------------------------------
  // Field-name sanitising

  /** string.Replace('.', '/') */
  function Escape(s: string): (r: string)
    ensures |r| == |s|
    ensures forall i :: 0 <= i < |s| ==> r[i] == (if s[i] == '.' then '/' else s[i])
    decreases |s|
  {
    if |s| == 0 then "" else [if s[0] == '.' then '/' else s[0]] + Escape(s[1..])
  }

  /** DotEscapeFieldName(string): null stays null, otherwise every '.' becomes '/'. */
  function DotEscapeFieldName(value: Option<string>): (r: Option<string>)
    ensures r.None? <==> value.None?
    ensures r.Some? ==> |r.value| == |value.value| && '.' !in r.value
    ensures r.Some? ==> forall i :: 0 <= i < |r.value| && value.value[i] != '.' ==> r.value[i] == value.value[i]
    ensures r.Some? ==> forall i :: 0 <= i < |r.value| && value.value[i] == '.' ==> r.value[i] == '/'
  {
    if value.None? then None else Some(Escape(value.value))
  }

  /** DotEscapeFieldName(ScalarValue): only string scalars are rewritten. */
  function DotEscapeScalar(value: Scalar): (r: Scalar)
    ensures value.SString? <==> r.SString?
    ensures value.SString? ==> DotEscapeFieldName(Some(value.s)) == Some(r.s)
    ensures !value.SString? ==> r == value
  {
    if value.SString? then SString(Escape(value.s)) else value
  }

  /** Escaping leaves no dot behind. */
  lemma EscapeRemovesDots(s: string)
    ensures '.' !in Escape(s)
  {
    assert forall i :: 0 <= i < |Escape(s)| ==> Escape(s)[i] != '.';
  }

  /** Escaping an escaped name changes nothing. */
  lemma EscapeIdempotent(s: string)
    ensures Escape(Escape(s)) == Escape(s)
  {
    EscapeRemovesDots(s);
    EscapeFixesDotFree(Escape(s));
  }

  /** A name without dots is written as it is. */
  lemma EscapeFixesDotFree(s: string)
    requires '.' !in s
    ensures Escape(s) == s
  {
    assert forall i :: 0 <= i < |s| ==> s[i] != '.';
  }

  // ---------------------------------------------------------------------------
  // WriteJsonProperty

  /** The property names the override drops, compared case-sensitively. */
  const PropertiesToOmit: seq<string> := ["SourceContext", "EventId"]

  /** char.ToUpperInvariant, restricted to the ASCII letters. */
  function ToUpperAscii(c: char): char {
    if 'a' <= c <= 'z' then (c as int - 32) as char else c
  }

  /** string.Equals(a, b, StringComparison.InvariantCultureIgnoreCase), for ASCII case. */
  predicate EqualsIgnoreCase(a: string, b: string) {
    |a| == |b| && forall i :: 0 <= i < |a| ==> ToUpperAscii(a[i]) == ToUpperAscii(b[i])
  }

  predicate IsHttpContextName(name: string) {
    EqualsIgnoreCase(name, "HttpContext")
  }

  /** The writes of the HttpContext structure's members, hoisted to the current level. */
  function HoistedWrites(members: seq<Property>): (r: seq<Token>)
    ensures |r| == |members|
    ensures forall i :: 0 <= i < |r| ==> r[i].JsonProperty? && '.' !in r[i].name
    decreases |members|
  {
    if |members| == 0 then []
    else
      var last := members[|members| - 1];
      EscapeRemovesDots(last.name);
      HoistedWrites(members[..|members| - 1]) + [JsonProperty(Escape(last.name), PropertyValueOf(last.value))]
  }

  /** What the WriteJsonProperty override writes for one (name, value): only
      property writes under dot-free names, and more than one only for HttpContext. */
  function PropertyWrites(name: string, value: JsonValue): (r: seq<Token>)
    ensures forall i :: 0 <= i < |r| ==> r[i].JsonProperty? && '.' !in r[i].name
    ensures |r| > 1 ==> IsHttpContextName(name)
  {
    EscapeRemovesDots(name);
    if name in PropertiesToOmit then []
    else if IsHttpContextName(name) then
      if value.PropertyValueOf? && value.v.Structure? then HoistedWrites(value.v.members) else []
    else [JsonProperty(Escape(name), value)]
  }

  /** Hoisting writes one property per member, in member order, under its escaped name. */
  lemma {:induction false} HoistedWritesMembers(members: seq<Property>)
    ensures |HoistedWrites(members)| == |members|
    ensures forall i :: 0 <= i < |members| ==>
      HoistedWrites(members)[i] == JsonProperty(Escape(members[i].name), PropertyValueOf(members[i].value))
    decreases |members|
  {
    if |members| > 0 {
      HoistedWritesMembers(members[..|members| - 1]);
    }
  }

  /** The three cases of the WriteJsonProperty override. */
  lemma PropertyWritesCases(name: string, value: JsonValue)
    ensures name == "SourceContext" || name == "EventId" ==> PropertyWrites(name, value) == []
    ensures name !in PropertiesToOmit && IsHttpContextName(name) && value.PropertyValueOf? && value.v.Structure? ==>
      && |PropertyWrites(name, value)| == |value.v.members|
      && forall i :: 0 <= i < |value.v.members| ==>
           PropertyWrites(name, value)[i]
             == JsonProperty(Escape(value.v.members[i].name), PropertyValueOf(value.v.members[i].value))
    ensures name !in PropertiesToOmit && IsHttpContextName(name) && !(value.PropertyValueOf? && value.v.Structure?) ==>
      PropertyWrites(name, value) == []
    ensures name !in PropertiesToOmit && !IsHttpContextName(name) ==>
      PropertyWrites(name, value) == [JsonProperty(Escape(name), value)]
  {
    if value.PropertyValueOf? && value.v.Structure? {
      HoistedWritesMembers(value.v.members);
    }
  }

  /** The writes of the base WritePropertiesValues loop, the override once per
      property: every one is a property write under a dot-free name. */
  function PropertiesValuesWrites(properties: seq<Property>): (r: seq<Token>)
    ensures forall i :: 0 <= i < |r| ==> r[i].JsonProperty? && '.' !in r[i].name
    decreases |properties|
  {
    if |properties| == 0 then []
    else
      var last := properties[|properties| - 1];
      var init := PropertiesValuesWrites(properties[..|properties| - 1]);
      var own := PropertyWrites(last.name, PropertyValueOf(last.value));
      assert forall i :: |init| <= i < |init| + |own| ==> (init + own)[i] == own[i - |init|];
      init + own
  }

  /** Appending writes in two steps or in one gives the same output. */
  lemma TokensAssoc(a: seq<Token>, b: seq<Token>, c: seq<Token>)
    ensures (a + b) + c == a + (b + c)
  {
  }

  /** One more property appends its own writes. */
  lemma PropertiesValuesWritesStep(properties: seq<Property>, i: nat)
    requires i < |properties|
    ensures PropertiesValuesWrites(properties[..i + 1])
         == PropertiesValuesWrites(properties[..i]) + PropertyWrites(properties[i].name, PropertyValueOf(properties[i].value))
  {
    assert properties[..i + 1][..i] == properties[..i];
  }

  /** What WriteProperties writes: a `"fields":{...}` wrapper, or only a leading
      comma when inlining. Raw punctuation appears only at the two ends, the
      closing one only around non-inlined fields. */
  function PropertiesSection(inlineFields: bool, properties: seq<Property>): (r: seq<Token>)
    ensures |r| == |PropertiesValuesWrites(properties)| + (if inlineFields then 1 else 2)
    ensures forall i :: 0 <= i < |r| && r[i].Raw? ==> i == 0 || (!inlineFields && i == |r| - 1)
  {
    (if !inlineFields then [Raw(",\"fields\":{")] else [Raw(",")])
    + PropertiesValuesWrites(properties)
    + (if !inlineFields then [Raw("}")] else [])
  }

  /** The tokens that are not raw punctuation. */
  function Fields(ts: seq<Token>): seq<Token>
    decreases |ts|
  {
    if |ts| == 0 then []
    else Fields(ts[..|ts| - 1]) + (if ts[|ts| - 1].Raw? then [] else [ts[|ts| - 1]])
  }

  lemma {:induction false} FieldsAppend(a: seq<Token>, b: seq<Token>)
    ensures Fields(a + b) == Fields(a) + Fields(b)
    decreases |b|
  {
    if |b| > 0 {
      var b' := b[..|b| - 1];
      assert (a + b)[..|a + b| - 1] == a + b';
      FieldsAppend(a, b');
    } else {
      assert a + b == a;
    }
  }

  lemma {:induction false} FieldsOfRawOnly(ts: seq<Token>)
    requires forall i :: 0 <= i < |ts| ==> ts[i].Raw?
    ensures Fields(ts) == []
    decreases |ts|
  {
    if |ts| > 0 {
      FieldsOfRawOnly(ts[..|ts| - 1]);
    }
  }

  lemma {:induction false} FieldsOfRawFree(ts: seq<Token>)
    requires forall i :: 0 <= i < |ts| ==> !ts[i].Raw?
    ensures Fields(ts) == ts
    decreases |ts|
  {
    if |ts| > 0 {
      FieldsOfRawFree(ts[..|ts| - 1]);
    }
  }

  /** Inlining is a pure structural transform: with or without the wrapper the
      same property writes appear, in the same order. */
  lemma InlineFieldsKeepsFields(properties: seq<Property>)
    ensures Fields(PropertiesSection(true, properties)) == Fields(PropertiesSection(false, properties))
    ensures Fields(PropertiesSection(true, properties)) == PropertiesValuesWrites(properties)
  {
    var body := PropertiesValuesWrites(properties);
    FieldsOfRawFree(body);
    FieldsAppend([Raw(",")], body);
    assert PropertiesSection(true, properties) == [Raw(",")] + body + [];
    assert [Raw(",")] + body + [] == [Raw(",")] + body;
    assert Fields([Raw(",")]) == [];
    FieldsAppend([Raw(",\"fields\":{")] + body, [Raw("}")]);
    FieldsAppend([Raw(",\"fields\":{")], body);
    assert Fields([Raw(",\"fields\":{")]) == [];
    assert Fields([Raw("}")]) == [];
  }

  /** Without a property named like HttpContext, no write carries an omitted name. */
  lemma {:induction false} OmittedNamesNotWritten(properties: seq<Property>)
    requires forall i :: 0 <= i < |properties| ==> !IsHttpContextName(properties[i].name)
    ensures forall i :: 0 <= i < |PropertiesValuesWrites(properties)| ==>
      PropertiesValuesWrites(properties)[i].JsonProperty? &&
      PropertiesValuesWrites(properties)[i].name !in PropertiesToOmit
    decreases |properties|
  {
    if |properties| > 0 {
      var last := properties[|properties| - 1];
      OmittedNamesNotWritten(properties[..|properties| - 1]);
      if last.name !in PropertiesToOmit {
        EscapePreservesOmittedNames(last.name);
      }
    }
  }

  /** Escaping maps no other name onto SourceContext or EventId. */
  lemma EscapePreservesOmittedNames(name: string)
    requires name !in PropertiesToOmit
    ensures Escape(name) !in PropertiesToOmit
  {
    if Escape(name) == "SourceContext" {
      EscapeOntoSlashFree(name, "SourceContext");
    }
    if Escape(name) == "EventId" {
      EscapeOntoSlashFree(name, "EventId");
    }
  }

  /** Only a name itself escapes onto a name without slashes. */
  lemma EscapeOntoSlashFree(name: string, target: string)
    requires '/' !in target && Escape(name) == target
    ensures name == target
  {
    forall i | 0 <= i < |name| ensures name[i] == target[i] {
      assert Escape(name)[i] == target[i];
    }
  }

  /** The fixed names the formatter writes its own fields under are neither
      omitted nor HttpContext, and contain no dot. */
  lemma FixedNameWrites(name: string, value: JsonValue)
    requires name == "exception" || name == "level"
    ensures PropertyWrites(name, value) == [JsonProperty(name, value)]
  {
    assert name[0] != "SourceContext"[0] && name[0] != "EventId"[0];
    assert |name| != |"HttpContext"|;
    PlainNameWrites(name, value);
  }

  /** A dot-free name that is neither omitted nor HttpContext is written once, unchanged. */
  lemma PlainNameWrites(name: string, value: JsonValue)
    requires name !in PropertiesToOmit && !IsHttpContextName(name) && '.' !in name
    ensures PropertyWrites(name, value) == [JsonProperty(name, value)]
  {
    EscapeFixesDotFree(name);
  }

  /** A property spelled exactly HttpContext is replaced by its members. */
  lemma HttpContextStructureHoisted(tag: Option<string>, members: seq<Property>)
    ensures PropertyWrites("HttpContext", PropertyValueOf(Structure(tag, members))) == HoistedWrites(members)
  {
    assert "HttpContext"[0] != "SourceContext"[0] && "HttpContext"[0] != "EventId"[0];
  }

  lemma SourceContextMemberWrite(v: PropertyValue)
    ensures HoistedWrites([Property("SourceContext", v)]) == [JsonProperty("SourceContext", PropertyValueOf(v))]
  {
    var members := [Property("SourceContext", v)];
    assert members[..0] == [];
    EscapeFixesDotFree("SourceContext");
  }

  /** Hoisted members bypass the omission: an HttpContext structure with a
      SourceContext member writes a SourceContext field. */
  lemma HoistedMemberIsNotOmitted(v: PropertyValue)
    ensures PropertyWrites("HttpContext", PropertyValueOf(Structure(None, [Property("SourceContext", v)])))
         == [JsonProperty("SourceContext", PropertyValueOf(v))]
  {
    HttpContextStructureHoisted(None, [Property("SourceContext", v)]);
    SourceContextMemberWrite(v);
  }

  // ---------------------------------------------------------------------------
  // WriteDictionary

  /** The dictionary ToDictionary builds: keys escaped, values kept, order kept. */
  function EscapeKeys(elements: seq<(Scalar, PropertyValue)>): (r: seq<(Scalar, PropertyValue)>)
    ensures |r| == |elements|
    ensures forall i :: 0 <= i < |r| ==> r[i].1 == elements[i].1
    ensures forall i :: 0 <= i < |r| ==> r[i].0 == DotEscapeScalar(elements[i].0)
    ensures forall i :: 0 <= i < |r| && r[i].0.SString? ==> '.' !in r[i].0.s
  {
    var r := seq(|elements|, i requires 0 <= i < |elements| => (DotEscapeScalar(elements[i].0), elements[i].1));
    forall i | 0 <= i < |r| && r[i].0.SString? ensures '.' !in r[i].0.s {
      EscapeRemovesDots(elements[i].0.s);
    }
    r
  }

  predicate KeysDistinct(entries: seq<(Scalar, PropertyValue)>) {
    forall i, j :: 0 <= i < j < |entries| ==> entries[i].0 != entries[j].0
  }

  /** Two keys of one dictionary that escape to the same name make ToDictionary throw. */
  lemma CollidingKeysExample(v: PropertyValue, w: PropertyValue)
    ensures KeysDistinct([(SString("a.b"), v), (SString("a/b"), w)])
    ensures !KeysDistinct(EscapeKeys([(SString("a.b"), v), (SString("a/b"), w)]))
  {
    var e := EscapeKeys([(SString("a.b"), v), (SString("a/b"), w)]);
    assert "a.b"[1] != "a/b"[1];
    assert Escape("a.b") == "a/b" == Escape("a/b");
    assert e[0].0 == e[1].0;
  }

  // ---------------------------------------------------------------------------
  // WriteException, WriteLevel

  /** Enum.GetName(typeof(LogEventLevel), level) */
  function LevelName(level: Level): string {
    match level
    case Verbose => "Verbose"
    case Debug => "Debug"
    case Information => "Information"
    case Warning => "Warning"
    case Error => "Error"
    case Fatal => "Fatal"
  }

  /** The level field names the level: no two levels share a name. */
  lemma LevelNameInjective(a: Level, b: Level)
    ensures LevelName(a) == LevelName(b) ==> a == b
  {
  }

  /** What WriteException writes: the tree, then the flat message field. The
      tree is the one property write; the message field is hand-written raw text. */
  function ExceptionWrites(tree: CustomError, innermostMessage: string): (r: seq<Token>)
    ensures Fields(r) == [JsonProperty("exception", ErrorTree(tree))]
  {
    var property := [JsonProperty("exception", ErrorTree(tree))];
    var message := [Raw(","), Raw("\""), Raw("@exceptionMessage"), Raw("\":"), Raw("\"" + innermostMessage + "\"")];
    FieldsAppend(property, message);
    FieldsOfRawOnly(message);
    assert property[..0] == [];
    property + message
  }

  /** The property write followed by the hand-written field make up ExceptionWrites. */
  lemma ExceptionWritesComposed(before: seq<Token>, afterTree: seq<Token>, after: seq<Token>,
                                tree: CustomError, message: string)
    requires afterTree == before + [JsonProperty("exception", ErrorTree(tree))]
    requires after == afterTree + [Raw(","), Raw("\""), Raw("@exceptionMessage"), Raw("\":"), Raw("\"" + message + "\"")]
    ensures after == before + ExceptionWrites(tree, message)
  {
    ExceptionWritesTokens(tree, message);
  }

  /** ExceptionWrites is the tree property followed by the five raw pieces of "@exceptionMessage". */
  lemma ExceptionWritesTokens(tree: CustomError, message: string)
    ensures ExceptionWrites(tree, message)
         == [JsonProperty("exception", ErrorTree(tree)),
             Raw(","), Raw("\""), Raw("@exceptionMessage"), Raw("\":"), Raw("\"" + message + "\"")]
  {
  }

  /** The flat message written beside the tree is the Message of the tree's deepest node. */
  lemma ExceptionMessageMatchesTree(ex: Exception)
    ensures ExceptionWrites(Flatten(ex), Innermost(ex).message)[0]
         == JsonProperty("exception", ErrorTree(Flatten(ex)))
    ensures Deepest(Flatten(ex)).message.Some?
    ensures ExceptionWrites(Flatten(ex), Innermost(ex).message)[5] == Raw("\"" + Deepest(Flatten(ex)).message.value + "\"")
  {
    InnermostMessageIsDeepestNode(ex);
    DeepestMessageWritten(Flatten(ex), Innermost(ex).message);
  }

  /** When the message is the deepest node's, the writes carry the tree first and that message last. */
  lemma DeepestMessageWritten(tree: CustomError, message: string)
    requires Deepest(tree).message == Some(message)
    ensures ExceptionWrites(tree, message)[0] == JsonProperty("exception", ErrorTree(tree))
    ensures ExceptionWrites(tree, message)[5] == Raw("\"" + Deepest(tree).message.value + "\"")
  {
    ExceptionWritesTokens(tree, message);
  }

  // ---------------------------------------------------------------------------
  // The formatter

  class CustomElasticsearchJsonFormatter {
    const inlineFields: bool
    /** The injected IElasticsearchSerializer's SerializeToString, or null. */
    const serializer: Option<JsonValue -> string>

    constructor (inlineFields: bool, serializer: Option<JsonValue -> string>)
      ensures this.inlineFields == inlineFields && this.serializer == serializer
    {
      this.inlineFields := inlineFields;
      this.serializer := serializer;
    }

    /** The override of WriteJsonProperty; the returned delimiter is the new
        value of `ref precedingDelimiter` (the base write leaves ","). */
    method WriteJsonProperty(name: string, value: JsonValue, precedingDelimiter: string, output: Output)
      returns (delimiter: string)
      modifies output
      ensures output.tokens == old(output.tokens) + PropertyWrites(name, value)
      ensures delimiter == if PropertyWrites(name, value) == [] then precedingDelimiter else ","
    {
      delimiter := precedingDelimiter;
      if name in PropertiesToOmit {
        return;
      }
      if IsHttpContextName(name) {
        if value.PropertyValueOf? && value.v.Structure? {
          var members := value.v.members;
          HoistedWritesMembers(members);
          var i := 0;
          while i < |members|
            invariant 0 <= i <= |members|
            invariant output.tokens == old(output.tokens) + HoistedWrites(members[..i])
            invariant delimiter == if i == 0 then precedingDelimiter else ","
          {
            var prop := members[i];
            var escaped := Escape(prop.name);
            output.Append(JsonProperty(escaped, PropertyValueOf(prop.value)));
            delimiter := ",";
            assert members[..i + 1][..i] == members[..i];
            i := i + 1;
          }
          assert members[..|members|] == members;
        }
      } else {
        var escaped := Escape(name);
        output.Append(JsonProperty(escaped, value));
        delimiter := ",";
      }
    }

    /** The base WritePropertiesValues loop, dispatching to the override. */
    method WritePropertiesValues(properties: seq<Property>, output: Output)
      modifies output
      ensures output.tokens == old(output.tokens) + PropertiesValuesWrites(properties)
    {
      var delimiter := "";
      var i := 0;
      while i < |properties|
        invariant 0 <= i <= |properties|
        invariant output.tokens == old(output.tokens) + PropertiesValuesWrites(properties[..i])
      {
        ghost var written := PropertiesValuesWrites(properties[..i]);
        ghost var own := PropertyWrites(properties[i].name, PropertyValueOf(properties[i].value));
        delimiter := WriteJsonProperty(properties[i].name, PropertyValueOf(properties[i].value), delimiter, output);
        PropertiesValuesWritesStep(properties, i);
        TokensAssoc(old(output.tokens), written, own);
        i := i + 1;
      }
      assert properties[..|properties|] == properties;
    }

    /** The override of WriteProperties. */
    method WriteProperties(properties: seq<Property>, output: Output)
      modifies output
      ensures output.tokens == old(output.tokens) + PropertiesSection(inlineFields, properties)
    {
      if !inlineFields {
        output.Append(Raw(",\"fields\":{"));
      } else {
        output.Append(Raw(","));
      }
      WritePropertiesValues(properties, output);
      if !inlineFields {
        output.Append(Raw("}"));
      }
    }

    /** The override of WriteDictionary: escape every key, then let the base
        write the dictionary. ToDictionary throws on a repeated escaped key. */
    method WriteDictionary(elements: seq<(Scalar, PropertyValue)>, output: Output) returns (outcome: Outcome)
      requires KeysDistinct(elements)
      modifies output
      ensures outcome.Pass? <==> KeysDistinct(EscapeKeys(elements))
      ensures outcome.Fail? ==> outcome.fault == ArgumentError
      ensures output.tokens == old(output.tokens)
        + (if outcome.Pass? then [JsonDictionary(EscapeKeys(elements))] else [])
    {
      var escaped: seq<(Scalar, PropertyValue)> := [];
      var i := 0;
      while i < |elements|
        invariant 0 <= i <= |elements|
        invariant escaped == EscapeKeys(elements)[..i]
        invariant KeysDistinct(escaped)
      {
        var key := DotEscapeScalar(elements[i].0);
        if exists j :: 0 <= j < i && escaped[j].0 == key {
          var j :| 0 <= j < i && escaped[j].0 == key;
          assert EscapeKeys(elements)[j].0 == EscapeKeys(elements)[i].0;
          return Fail(ArgumentError);
        }
        escaped := escaped + [(key, elements[i].1)];
        i := i + 1;
      }
      assert escaped == EscapeKeys(elements);
      output.Append(JsonDictionary(escaped));
      outcome := Pass;
    }

    /** The override of WriteException: the tree under "exception", then the
        innermost message under "@exceptionMessage". */
    method WriteException(ex: Exception, delim: string, output: Output) returns (delimiter: string)
      modifies output
      ensures output.tokens == old(output.tokens) + ExceptionWrites(Flatten(ex), Innermost(ex).message)
      ensures delimiter == ","
    {
      var tree := ToCustomError(ex);
      FixedNameWrites("exception", ErrorTree(tree));
      delimiter := WriteJsonProperty("exception", ErrorTree(tree), delim, output);
      ghost var treeWritten := output.tokens;
      var message := InnermostMessage(ex);
      WriteExceptionMessage(delimiter, message, output);
      ExceptionWritesComposed(old(output.tokens), treeWritten, output.tokens, tree, message);
    }

    /** The hand-written "@exceptionMessage" field of WriteException. */
    method WriteExceptionMessage(delim: string, message: string, output: Output)
      modifies output
      ensures output.tokens == old(output.tokens)
        + [Raw(delim), Raw("\""), Raw("@exceptionMessage"), Raw("\":"), Raw("\"" + message + "\"")]
    {
      output.Append(Raw(delim));
      output.Append(Raw("\""));
      output.Append(Raw("@exceptionMessage"));
      output.Append(Raw("\":"));
      output.Append(Raw("\"" + message + "\""));
    }

    /** The override of WriteLevel: the level's enum name under "level". */
    method WriteLevel(level: Level, delim: string, output: Output) returns (delimiter: string)
      modifies output
      ensures output.tokens == old(output.tokens) + [JsonProperty("level", Text(LevelName(level)))]
      ensures delimiter == ","
    {
      FixedNameWrites("level", Text(LevelName(level)));
      delimiter := WriteJsonProperty("level", Text(LevelName(level)), delim, output);
    }

    /** The override of WriteLiteralValue: the serializer's text verbatim when
        one was injected, the base rendering otherwise. */
    method WriteLiteralValue(value: JsonValue, output: Output)
      modifies output
      ensures serializer.Some? ==> output.tokens == old(output.tokens) + [Raw(serializer.value(value))]
      ensures serializer.None? ==> output.tokens == old(output.tokens) + [Literal(value)]
    {
      if serializer.Some? {
        var jsonString := serializer.value(value);
        output.Append(Raw(jsonString));
        return;
      }
      output.Append(Literal(value));
    }
  }
}
