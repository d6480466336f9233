/** The field extractor of `src/extraction.rs`: raw JSON records become
    `ExportItem`s under an ordered list of key mappings. A record that cannot
    yield an item is dropped, never reported.

    `ExtractSingle` and the functions it is built from state what one record
    yields; the method `ExtractSingleExportItem` is the Rust loop, proved to
    compute it. Every specification function walks the mappings from the
    end, so that a loop invariant over the prefix `ms[..i]` advances by one
    unfolding. */
module Extraction {
  import opened Wrappers
  import opened Json
  import opened Time
  import opened Writes
  import opened Dto
  import opened Filtering

  /** Why one record yields no item (the error messages of the Rust code). */
  datatype ExtractError =
    | NotAnObject                                  // "Item in array is not a JSON object"
    | DateParseFailed(value: string, format: string) // "Failed to parse date '{}' with format '{}'"
    | MissingContent                               // "Missing 'content' field in an item"
    | MissingDate                                  // "Missing or invalid 'date' field in an item"

  /** The targets with their own handling; any other target is a metadata key. */
  predicate IsDedicated(target: string) {
    target == "id" || target == "content" || target == "date"
  }

  /** Mapping `m` applies to the record and targets `target`. */
  predicate AppliesTo(obj: map<string, Json>, m: KeyMapping, target: string) {
    m.from in obj && m.to == target
  }

  /** Every mapping whose `from` key is present consumes that key, whatever
      its target and whatever the type of the value. */
  function Consumed(obj: map<string, Json>, ms: seq<KeyMapping>): set<string>
  {
    if |ms| == 0 then {}
    else
      var prev := Consumed(obj, ms[..|ms| - 1]);
      if ms[|ms| - 1].from in obj then prev + {ms[|ms| - 1].from} else prev
  }

  /** A key is consumed iff it is in the record and some mapping reads it. */
  lemma {:induction false} ConsumedIff(obj: map<string, Json>, ms: seq<KeyMapping>, k: string)
    ensures k in Consumed(obj, ms) <==> k in obj && exists j :: 0 <= j < |ms| && ms[j].from == k
  {
    if |ms| > 0 {
      var front := ms[..|ms| - 1];
      ConsumedIff(obj, front, k);
      if exists j :: 0 <= j < |ms| && ms[j].from == k {
        var j :| 0 <= j < |ms| && ms[j].from == k;
        if j < |front| {
          assert front[j] == ms[j];
        }
      }
      if exists j :: 0 <= j < |front| && front[j].from == k {
        var j :| 0 <= j < |front| && front[j].from == k;
        assert ms[j] == front[j];
      }
    }
  }

  /** The index of the last mapping that applies to the record and targets
      `target`. */
  function LastApplying(obj: map<string, Json>, ms: seq<KeyMapping>, target: string): (r: Option<nat>)
    ensures r.Some? ==> r.value < |ms| && AppliesTo(obj, ms[r.value], target)
  {
    if |ms| == 0 then None
    else if AppliesTo(obj, ms[|ms| - 1], target) then Some(|ms| - 1)
    else LastApplying(obj, ms[..|ms| - 1], target)
  }

  /** `LastApplying` finds the last applying mapping, and none exactly when
      no mapping applies. */
  lemma {:induction false} LastApplyingIsLast(obj: map<string, Json>, ms: seq<KeyMapping>, target: string)
    ensures var r := LastApplying(obj, ms, target);
            && (r.None? <==> forall j :: 0 <= j < |ms| ==> !AppliesTo(obj, ms[j], target))
            && (r.Some? ==> r.value < |ms| && AppliesTo(obj, ms[r.value], target)
                            && forall j :: r.value < j < |ms| ==> !AppliesTo(obj, ms[j], target))
  {
    if |ms| > 0 && !AppliesTo(obj, ms[|ms| - 1], target) {
      var front := ms[..|ms| - 1];
      LastApplyingIsLast(obj, front, target);
      var r := LastApplying(obj, front, target);
      if r.Some? {
        assert ms[r.value] == front[r.value];
        forall j | r.value < j < |ms| ensures !AppliesTo(obj, ms[j], target) {
          if j < |front| {
            assert ms[j] == front[j];
          }
        }
      } else {
        forall j | 0 <= j < |ms| ensures !AppliesTo(obj, ms[j], target) {
          if j < |front| {
            assert ms[j] == front[j];
          }
        }
      }
    }
  }

  /** The value of `id` or `content`: each applying mapping assigns
      `value.as_str()`, so the last one decides, and a non-string value
      leaves the field unset. */
  function FieldOf(obj: map<string, Json>, ms: seq<KeyMapping>, target: string): Option<string>
  {
    match LastApplying(obj, ms, target)
    case None => None
    case Some(j) => AsStr(obj[ms[j].from])
  }

  /** Mapping `m` makes the record's date be parsed: it targets `date`, has
      kind `Date`, and the record holds a string under its key. */
  predicate IsDateAttempt(obj: map<string, Json>, m: KeyMapping) {
    AppliesTo(obj, m, "date") && m.kind.Date? && obj[m.from].JString?
  }

  predicate DateAttemptFails(obj: map<string, Json>, m: KeyMapping, parse: DateParser) {
    IsDateAttempt(obj, m) && parse(obj[m.from].s, m.kind.format).None?
  }

  /** The record's date after the mappings: the first attempt that does not
      parse ends the record; otherwise the last attempt's date at midnight
      UTC, or none when nothing attempted a date. */
  function DateOf(obj: map<string, Json>, ms: seq<KeyMapping>, parse: DateParser)
    : Result<Option<DateTime>, ExtractError>
  {
    if |ms| == 0 then Success(None)
    else
      var prev := DateOf(obj, ms[..|ms| - 1], parse);
      var m := ms[|ms| - 1];
      if prev.Failure? then prev
      else if IsDateAttempt(obj, m) then
        match parse(obj[m.from].s, m.kind.format)
        case None => Failure(DateParseFailed(obj[m.from].s, m.kind.format))
        case Some(d) => Success(Some(Midnight(d)))
      else prev
  }

  /** Once a prefix of the mappings has failed the date, the whole list has,
      with the same error. */
  lemma {:induction false} DateFailurePersists(obj: map<string, Json>, ms: seq<KeyMapping>, parse: DateParser, i: nat)
    requires i <= |ms| && DateOf(obj, ms[..i], parse).Failure?
    ensures DateOf(obj, ms, parse) == DateOf(obj, ms[..i], parse)
    decreases |ms| - i
  {
    if i < |ms| {
      var front := ms[..|ms| - 1];
      assert front[..i] == ms[..i];
      DateFailurePersists(obj, front, parse, i);
    } else {
      assert ms[..i] == ms;
    }
  }

  /** A date that fails to parse at mapping `i`, after none failed before it,
      is the record's outcome, whatever the later mappings do. */
  lemma DateFailureIsFinal(obj: map<string, Json>, ms: seq<KeyMapping>, parse: DateParser, i: nat)
    requires i < |ms| && DateAttemptFails(obj, ms[i], parse)
    requires DateOf(obj, ms[..i], parse).Success?
    ensures DateOf(obj, ms, parse) == Failure(DateParseFailed(obj[ms[i].from].s, ms[i].kind.format))
  {
    assert ms[..i + 1][..i] == ms[..i];
    DateFailurePersists(obj, ms, parse, i + 1);
  }

  /** The date outcome in terms of the mappings: it fails iff some date
      attempt fails, and then with the first failing attempt's value and
      format; it is none iff nothing attempts a date; otherwise it is the
      last attempt's date at midnight UTC. */
  lemma {:induction false} DateOfOutcome(obj: map<string, Json>, ms: seq<KeyMapping>, parse: DateParser)
    ensures var r := DateOf(obj, ms, parse);
      && (r.Failure? <==> exists j :: 0 <= j < |ms| && DateAttemptFails(obj, ms[j], parse))
      && (r.Failure? ==>
            exists j :: 0 <= j < |ms| && DateAttemptFails(obj, ms[j], parse)
                        && r.error == DateParseFailed(obj[ms[j].from].s, ms[j].kind.format)
                        && forall i :: 0 <= i < j ==> !DateAttemptFails(obj, ms[i], parse))
      && (r.Success? ==> (r.value.None? <==> forall j :: 0 <= j < |ms| ==> !IsDateAttempt(obj, ms[j])))
      && (r.Success? && r.value.Some? ==>
            exists j :: 0 <= j < |ms| && IsDateAttempt(obj, ms[j])
                        && parse(obj[ms[j].from].s, ms[j].kind.format).Some?
                        && r.value.value == Midnight(parse(obj[ms[j].from].s, ms[j].kind.format).value)
                        && forall i :: j < i < |ms| ==> !IsDateAttempt(obj, ms[i]))
  {
    if |ms| > 0 {
      var n := |ms| - 1;
      var front := ms[..n];
      DateOfOutcome(obj, front, parse);
      var prev := DateOf(obj, front, parse);
      var m := ms[n];
      if prev.Failure? {
        var j :| 0 <= j < |front| && DateAttemptFails(obj, front[j], parse)
                 && prev.error == DateParseFailed(obj[front[j].from].s, front[j].kind.format)
                 && forall i :: 0 <= i < j ==> !DateAttemptFails(obj, front[i], parse);
        assert ms[j] == front[j];
        forall i | 0 <= i < j ensures !DateAttemptFails(obj, ms[i], parse) {
          assert ms[i] == front[i];
        }
      } else {
        forall i | 0 <= i < n ensures !DateAttemptFails(obj, ms[i], parse) {
          assert ms[i] == front[i];
        }
        if !IsDateAttempt(obj, m) {
          if prev.value.Some? {
            var j :| 0 <= j < |front| && IsDateAttempt(obj, front[j])
                     && parse(obj[front[j].from].s, front[j].kind.format).Some?
                     && prev.value.value == Midnight(parse(obj[front[j].from].s, front[j].kind.format).value)
                     && forall i :: j < i < |front| ==> !IsDateAttempt(obj, front[i]);
            assert ms[j] == front[j];
            forall i | j < i < |ms| ensures !IsDateAttempt(obj, ms[i]) {
              if i < n {
                assert ms[i] == front[i];
              }
            }
          } else {
            forall i | 0 <= i < |ms| ensures !IsDateAttempt(obj, ms[i]) {
              if i < n {
                assert ms[i] == front[i];
              }
            }
          }
        }
      }
    }
  }

  /** Mapping `m` writes explicit metadata: it applies, targets a metadata
      key, and the value is a string (other values are ignored). */
  predicate WritesMetadata(obj: map<string, Json>, m: KeyMapping) {
    m.from in obj && !IsDedicated(m.to) && obj[m.from].JString?
  }

  /** The explicit metadata writes, in mapping order. */
  function MetadataWrites(obj: map<string, Json>, ms: seq<KeyMapping>): seq<(string, string)>
  {
    if |ms| == 0 then []
    else
      var prev := MetadataWrites(obj, ms[..|ms| - 1]);
      var m := ms[|ms| - 1];
      if WritesMetadata(obj, m) then prev + [(m.to, obj[m.from].s)] else prev
  }

  /** The explicit metadata writes are exactly those of the mappings that
      apply, target a metadata key and find a string. */
  lemma {:induction false} MetadataWritesIff(obj: map<string, Json>, ms: seq<KeyMapping>, w: (string, string))
    ensures w in MetadataWrites(obj, ms) <==>
              exists j :: 0 <= j < |ms| && WritesMetadata(obj, ms[j]) && w == (ms[j].to, obj[ms[j].from].s)
  {
    if |ms| > 0 {
      var front := ms[..|ms| - 1];
      MetadataWritesIff(obj, front, w);
      if exists j :: 0 <= j < |ms| && WritesMetadata(obj, ms[j]) && w == (ms[j].to, obj[ms[j].from].s) {
        var j :| 0 <= j < |ms| && WritesMetadata(obj, ms[j]) && w == (ms[j].to, obj[ms[j].from].s);
        if j < |front| {
          assert front[j] == ms[j];
        }
      }
      if exists j :: 0 <= j < |front| && WritesMetadata(obj, front[j]) && w == (front[j].to, obj[front[j].from].s) {
        var j :| 0 <= j < |front| && WritesMetadata(obj, front[j]) && w == (front[j].to, obj[front[j].from].s);
        assert ms[j] == front[j];
      }
    }
  }

  /** The string-valued keys of the record that no mapping consumed. */
  function PassThrough(obj: map<string, Json>, consumed: set<string>): map<string, string>
  {
    map k | k in obj && k !in consumed && obj[k].JString? :: obj[k].s
  }

  /** The item's metadata: the explicit writes, then the pass-through keys,
      which therefore replace an explicit entry of the same name. */
  function Metadata(obj: map<string, Json>, ms: seq<KeyMapping>): map<string, string>
  {
    ApplyWrites(map[], MetadataWrites(obj, ms)) + PassThrough(obj, Consumed(obj, ms))
  }

  /** What one record yields. The checks come in the order of the Rust code:
      not an object, a date that does not parse (inside the mapping loop),
      then missing content, then missing date. */
  function ExtractSingle(data: Json, ms: seq<KeyMapping>, parse: DateParser): Result<ExportItem, ExtractError>
  {
    if !data.JObject? then Failure(NotAnObject)
    else
      var obj := data.fields;
      match DateOf(obj, ms, parse)
      case Failure(e) => Failure(e)
      case Success(date) =>
        var content := FieldOf(obj, ms, "content");
        if content.None? then Failure(MissingContent)
        else if date.None? then Failure(MissingDate)
        else Success(ExportItem(FieldOf(obj, ms, "id"), content.value, date.value, Metadata(obj, ms)))
  }

  /** `extract_single_export_item`: the first loop walks the mappings and
      updates `id`, `content`, `date`, the explicit metadata and the set of
      consumed keys; the second copies unconsumed string fields into the
      metadata. */
  method ExtractSingleExportItem(data: Json, keyMappings: seq<KeyMapping>, parse: DateParser)
    returns (r: Result<ExportItem, ExtractError>)
    ensures r == ExtractSingle(data, keyMappings, parse)
  {
    if !data.JObject? {
      return Failure(NotAnObject);
    }
    var obj := data.fields;
    var id: Option<string> := None;
    var content: Option<string> := None;
    var date: Option<DateTime> := None;
    var metadata: map<string, string> := map[];
    var mappedKeys: set<string> := {};

    var i := 0;
    while i < |keyMappings|
      invariant 0 <= i <= |keyMappings|
      invariant id == FieldOf(obj, keyMappings[..i], "id")
      invariant content == FieldOf(obj, keyMappings[..i], "content")
      invariant DateOf(obj, keyMappings[..i], parse) == Success(date)
      invariant metadata == ApplyWrites(map[], MetadataWrites(obj, keyMappings[..i]))
      invariant mappedKeys == Consumed(obj, keyMappings[..i])
    {
      var mapping := keyMappings[i];
      assert keyMappings[..i + 1][..i] == keyMappings[..i];
      if mapping.from in obj {
        var value := obj[mapping.from];
        mappedKeys := mappedKeys + {mapping.from};
        if mapping.to == "id" {
          id := AsStr(value);
        } else if mapping.to == "content" {
          content := AsStr(value);
        } else if mapping.to == "date" {
          if mapping.kind.Date? && value.JString? {
            var parsed := parse(value.s, mapping.kind.format);
            if parsed.None? {
              r := Failure(DateParseFailed(value.s, mapping.kind.format));
              DateFailureIsFinal(obj, keyMappings, parse, i);
              return;
            }
            date := Some(Midnight(parsed.value));
          }
        } else if value.JString? {
          metadata := metadata[mapping.to := value.s];
        }
      }
      i := i + 1;
    }
    assert keyMappings[..i] == keyMappings;

    metadata := CopyUnmapped(obj, mappedKeys, metadata);
    assert metadata == Metadata(obj, keyMappings);

    if content.None? {
      return Failure(MissingContent);
    }
    if date.None? {
      return Failure(MissingDate);
    }
    r := Success(ExportItem(id, content.value, date.value, metadata));
  }

  /** The second loop of `extract_single_export_item`: every field of the
      record that no mapping consumed and whose value is a string is
      inserted into `metadata` under its own key. */
  method CopyUnmapped(obj: map<string, Json>, mappedKeys: set<string>, metadata: map<string, string>)
    returns (r: map<string, string>)
    ensures r == metadata + PassThrough(obj, mappedKeys)
  {
    r := metadata;
    var pending := obj.Keys;
    assert PassThrough(obj, mappedKeys + pending) == map[];
    while pending != {}
      invariant pending <= obj.Keys
      invariant r == metadata + PassThrough(obj, mappedKeys + pending)
      decreases pending
    {
      var key :| key in pending;
      PassThroughRelease(obj, mappedKeys, pending, key);
      if key !in mappedKeys && obj[key].JString? {
        r := r[key := obj[key].s];
      }
      pending := pending - {key};
    }
    assert mappedKeys + pending == mappedKeys;
  }

  /** Taking one key out of the pending set adds it to the pass-through map
      exactly when it is an unconsumed string field. */
  lemma PassThroughRelease(obj: map<string, Json>, mappedKeys: set<string>, pending: set<string>, key: string)
    requires key in pending && key in obj
    ensures PassThrough(obj, mappedKeys + (pending - {key})) ==
              if key !in mappedKeys && obj[key].JString?
              then PassThrough(obj, mappedKeys + pending)[key := obj[key].s]
              else PassThrough(obj, mappedKeys + pending)
  {
    if key in mappedKeys {
      assert mappedKeys + (pending - {key}) == mappedKeys + pending;
    }
  }

  /** One record's extraction, as a step for `filter_map`. */
  function Extractor(ms: seq<KeyMapping>, parse: DateParser): Json -> Result<ExportItem, ExtractError>
  {
    d => ExtractSingle(d, ms, parse)
  }

  /** `extract_export_items`: a `filter_map` that drops every record whose
      extraction fails, so it never fails itself. */
  function ExtractExportItems(data: seq<Json>, ms: seq<KeyMapping>, parse: DateParser)
    : (r: Result<seq<ExportItem>, JobError>)
    ensures r.Success? && |r.value| <= |data|
  {
    Success(KeepOk(Extractor(ms, parse), data))
  }

  /** The output is exactly the subsequence of records that extract, each
      replaced by its item, in the original order. */
  lemma ExtractedInOrder(data: seq<Json>, ms: seq<KeyMapping>, parse: DateParser)
    ensures exists idx :: Picks(Extractor(ms, parse), data, ExtractExportItems(data, ms, parse).value, idx)
    ensures forall i :: 0 <= i < |data| ==> Extractor(ms, parse)(data[i]) == ExtractSingle(data[i], ms, parse)
  {
    var f := Extractor(ms, parse);
    KeptInOrder(f, data);
    assert ExtractExportItems(data, ms, parse).value == KeepOk(f, data);
  }

  /** An item is produced iff the record is an object, the last mapping
      into `content` that applies finds a string, some mapping attempts a
      date, and no date attempt fails to parse. `id` plays no part. */
  lemma ProducedIff(data: Json, ms: seq<KeyMapping>, parse: DateParser)
    ensures ExtractSingle(data, ms, parse).Success? <==>
              && data.JObject?
              && LastApplying(data.fields, ms, "content").Some?
              && data.fields[ms[LastApplying(data.fields, ms, "content").value].from].JString?
              && (exists j :: 0 <= j < |ms| && IsDateAttempt(data.fields, ms[j]))
              && (forall j :: 0 <= j < |ms| ==> !DateAttemptFails(data.fields, ms[j], parse))
  {
    if data.JObject? {
      DateOfOutcome(data.fields, ms, parse);
    }
  }

  /** A record that is not a JSON object yields nothing. */
  lemma NonObjectDropped(data: Json, ms: seq<KeyMapping>, parse: DateParser)
    requires !data.JObject?
    ensures ExtractSingle(data, ms, parse) == Failure(NotAnObject)
    ensures ExtractExportItems([data], ms, parse).value == []
  {
    assert [data][..0] == [];
  }

  /** For `id` and `content` the last applying mapping wins, and a value
      that is not a string resets the field to none. */
  lemma {:induction false} LastFieldMappingWins(obj: map<string, Json>, ms: seq<KeyMapping>, target: string, j: nat)
    requires j < |ms| && AppliesTo(obj, ms[j], target)
    requires forall i :: j < i < |ms| ==> !AppliesTo(obj, ms[i], target)
    ensures FieldOf(obj, ms, target) == if obj[ms[j].from].JString? then Some(obj[ms[j].from].s) else None
  {
    LastApplyingIsLast(obj, ms, target);
    var last := LastApplying(obj, ms, target);
    assert last.Some?;
  }

  /** What one produced item holds, field by field. */
  lemma ItemFields(data: Json, ms: seq<KeyMapping>, parse: DateParser)
    requires ExtractSingle(data, ms, parse).Success?
    ensures data.JObject?
    ensures var item := ExtractSingle(data, ms, parse).value;
            && Some(item.content) == FieldOf(data.fields, ms, "content")
            && item.id == FieldOf(data.fields, ms, "id")
            && DateOf(data.fields, ms, parse) == Success(Some(item.date))
            && item.date.hour == 0 && item.date.minute == 0 && item.date.second == 0
  {
    DateOfOutcome(data.fields, ms, parse);
  }

  /** The metadata of a produced item: an unconsumed string field of the
      record appears under its own key and wins over an explicit mapping to
      the same key; otherwise the key holds the value of the last explicit
      metadata write to it, and no other key is present. */
  lemma MetadataAt(data: Json, ms: seq<KeyMapping>, parse: DateParser, k: string)
    requires ExtractSingle(data, ms, parse).Success?
    ensures data.JObject?
    ensures var obj := data.fields;
            var md := ExtractSingle(data, ms, parse).value.metadata;
            var passed := k in obj && k !in Consumed(obj, ms) && obj[k].JString?;
            var explicit := LastWrite(MetadataWrites(obj, ms), k);
            && (k in md <==> passed || explicit.Some?)
            && (passed ==> md[k] == obj[k].s)
            && (!passed && explicit.Some? ==> md[k] == explicit.value)
  {
    ApplyWritesAt(map[], MetadataWrites(data.fields, ms), k);
  }

  /** The record {"content":"hi","date":"2024-01-05","extra":"x"} ... */
  const ExampleFields: map<string, Json> :=
    map["content" := JString("hi"), "date" := JString("2024-01-05"), "extra" := JString("x")]

  /** ... under a date mapping and a content mapping. */
  const ExampleMappings: seq<KeyMapping> :=
    [KeyMapping("date", "date", Date("%Y-%m-%d")), KeyMapping("content", "content", StringKind)]

  lemma ExampleDate(parse: DateParser, day: NaiveDate)
    requires parse("2024-01-05", "%Y-%m-%d") == Some(day)
    ensures DateOf(ExampleFields, ExampleMappings, parse) == Success(Some(Midnight(day)))
  {
    var ms := ExampleMappings;
    assert ms[..1] == [ms[0]] && ms[..1][..0] == [];
    assert DateOf(ExampleFields, ms[..1], parse) == Success(Some(Midnight(day)));
  }

  lemma ExampleMetadata()
    ensures Metadata(ExampleFields, ExampleMappings) == map["extra" := "x"]
  {
    var obj, ms := ExampleFields, ExampleMappings;
    assert ms[..1] == [ms[0]] && ms[..1][..0] == [];
    assert MetadataWrites(obj, ms) == [];
    assert Consumed(obj, ms) == {"date", "content"};
    assert PassThrough(obj, {"date", "content"}) == map["extra" := "x"];
  }

  /** The example record gives one item: content "hi", the parsed date at
      midnight UTC, no id, and metadata {"extra":"x"}. */
  lemma ExampleRecord(parse: DateParser, day: NaiveDate)
    requires parse("2024-01-05", "%Y-%m-%d") == Some(day)
    ensures ExtractExportItems([JObject(ExampleFields)], ExampleMappings, parse).value
              == [ExportItem(None, "hi", Midnight(day), map["extra" := "x"])]
  {
    var obj, ms := ExampleFields, ExampleMappings;
    ExampleDate(parse, day);
    ExampleMetadata();
    assert FieldOf(obj, ms, "content") == Some("hi") by {
      assert LastApplying(obj, ms, "content") == Some(1);
    }
    assert FieldOf(obj, ms, "id") == None by {
      assert ms[..1] == [ms[0]] && ms[..1][..0] == [];
      assert LastApplying(obj, ms, "id") == None;
    }
    assert ExtractSingle(JObject(obj), ms, parse) == Success(ExportItem(None, "hi", Midnight(day), map["extra" := "x"]));
    assert [JObject(obj)][..0] == [];
  }
}
