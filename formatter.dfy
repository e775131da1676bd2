/**
 * The event formatter: a fixed table from event kind to a display
 * template whose `{name}` placeholders are filled like Python's
 * `str.format(**fields)`, and `repr(event)` for every other kind.
 */
module Formatter {
  import opened Text
  import opened PyValues

  /** A template is literal text and named placeholders, in order. */
  datatype Piece = Lit(s: string) | Field(name: string)

  /** The template table, one entry per known event kind. */
  const FmtMap: map<string, seq<Piece>> := map[
    "version" := [Lit("pi-webradio version "), Field("value")],
    "icy_meta" := [Field("value")],
    "icy_name" := [Field("value")],
    "rec_start" := [Lit("recording "), Field("name"), Lit(" for "), Field("duration"), Lit(" minutes")],
    "rec_stop" := [Lit("finished recording. File "), Field("file"), Lit(", duration: "), Field("duration"), Lit("m")],
    "vol_set" := [Lit("setting current volume to "), Field("value")],
    "radio_play_channel" := [Lit("start playing channel "), Field("nr"), Lit(" ("), Field("name"), Lit(")")],
    "play" := [Lit("playing "), Field("value")],
    "pause" := [Lit("pausing "), Field("value")],
    "file_info" := [Field("name"), Lit(": "), Field("total_pretty")],
    "id3" := [Field("tag"), Lit(": "), Field("value")],
    "keep_alive" := [Lit("current time: "), Field("value")],
    "eof" := [Field("name"), Lit(" finished")],
    "dir_select" := [Lit("current directory: "), Field("value")]
  ]

  /** A placeholder of the template that the keyword arguments do not supply. */
  predicate Missing(pieces: seq<Piece>, fields: PyDict) {
    exists i :: 0 <= i < |pieces| && pieces[i].Field? && !HasKey(fields, pieces[i].name)
  }

  /**
   * `template.format(**fields)`: each placeholder is replaced by `str()` of
   * its field; a missing field raises `KeyError`, here `Err(name)`.
   */
  function Fill(pieces: seq<Piece>, fields: PyDict): (r: Result<string, string>)
    ensures r.Err? <==> Missing(pieces, fields)
    ensures r.Err? ==> exists i :: 0 <= i < |pieces| && pieces[i] == Field(r.error)
  {
    if pieces == [] then Ok("")
    else
      var rest := Fill(pieces[1..], fields);
      assert forall i :: 0 < i < |pieces| ==> pieces[i] == pieces[1..][i - 1];
      assert Missing(pieces[1..], fields) ==> Missing(pieces, fields) by {
        if Missing(pieces[1..], fields) {
          var i :| 0 <= i < |pieces[1..]| && pieces[1..][i].Field? && !HasKey(fields, pieces[1..][i].name);
          assert pieces[i + 1] == pieces[1..][i];
        }
      }
      match pieces[0]
      case Lit(s) =>
        (match rest
         case Ok(t) => Ok(s + t)
         case Err(n) => Err(n))
      case Field(name) =>
        (match Get(fields, name)
         case None => Err(name)
         case Some(v) =>
           match rest
           case Ok(t) => Ok(ToStr(v) + t)
           case Err(n) => Err(n))
  }

  /** The keyword arguments: the value's own fields for a dict value, else the event's. */
  function FieldsOf(e: Event): PyDict {
    if e.value.Dict? then e.value.entries else [("type", Str(e.kind)), ("value", e.value)]
  }

  /** `EventFormatter.format(event)`. */
  function Format(e: Event): (r: Result<string, string>)
    ensures r.Err? ==> e.kind in FmtMap && Missing(FmtMap[e.kind], FieldsOf(e))
  {
    if e.kind in FmtMap then Fill(FmtMap[e.kind], FieldsOf(e))
    else Ok(ReprEvent(e))
  }

  // ---------------------------------------------------------------------------
  // Properties of the table
  // ---------------------------------------------------------------------------

  /** The table knows exactly fourteen kinds. */
  lemma FmtMapKinds()
    ensures FmtMap.Keys == {"version", "icy_meta", "icy_name", "rec_start", "rec_stop", "vol_set",
                            "radio_play_channel", "play", "pause", "file_info", "id3", "keep_alive",
                            "eof", "dir_select"}
  {
  }

  /** A kind outside the table is rendered as `repr(event)`, never as an error. */
  lemma FormatUnknownKind(e: Event)
    requires e.kind !in FmtMap
    ensures Format(e) == Ok(ReprEvent(e))
  {
  }

  /** The kinds the system produces but the table does not know. */
  lemma UnknownKinds()
    ensures "state" !in FmtMap && "sample" !in FmtMap && "sys" !in FmtMap
  {
  }

  /** `eof` with a dict value is filled from the dict: `"<name> finished"`. */
  lemma FormatEof(name: string, last: bool)
    ensures Format(Event("eof", Dict([("name", Str(name)), ("last", Bool(last))]))) == Ok(name + " finished")
  {
    var fields := [("name", Str(name)), ("last", Bool(last))];
    var t := FmtMap["eof"];
    assert Get(fields, "name") == Some(Str(name));
    assert t[1..] == [Lit(" finished")] && t[1..][1..] == [];
    assert " finished" + "" == " finished";
    assert Fill(t[1..], fields) == Ok(" finished");
  }

  /** `keep_alive` with a string value is filled from the event: `"current time: <value>"`. */
  lemma FormatKeepAlive(now: string)
    ensures Format(Event("keep_alive", Str(now))) == Ok("current time: " + now)
  {
    var fields := [("type", Str("keep_alive")), ("value", Str(now))];
    var t := FmtMap["keep_alive"];
    assert Get(fields, "value") == Some(Str(now));
    assert t[1..] == [Field("value")] && t[1..][1..] == [];
    assert now + "" == now;
    assert Fill(t[1..], fields) == Ok(now);
  }

  /** The kinds whose template reads only `{value}`, after an optional literal prefix. */
  predicate ValueOnly(kind: string) {
    kind in FmtMap && (|FmtMap[kind]| == 1 || |FmtMap[kind]| == 2) &&
    FmtMap[kind][|FmtMap[kind]| - 1] == Field("value") &&
    (|FmtMap[kind]| == 2 ==> FmtMap[kind][0].Lit?)
  }

  /**
   * For such a kind, any value that is not a dict is filled from the event's
   * own fields and the result is the prefix followed by `str(value)`.
   */
  lemma FormatValueOnly(kind: string, v: Value)
    requires ValueOnly(kind) && !v.Dict?
    ensures Format(Event(kind, v)) ==
            Ok((if |FmtMap[kind]| == 2 then FmtMap[kind][0].s else "") + ToStr(v))
  {
    var fields := [("type", Str(kind)), ("value", v)];
    assert Get(fields, "value") == Some(v);
    FillValue(FmtMap[kind], fields, v);
  }

  /** A template reading only `{value}` after an optional prefix renders that prefix and `str(value)`. */
  lemma FillValue(t: seq<Piece>, fields: PyDict, v: Value)
    requires (|t| == 1 || |t| == 2) && t[|t| - 1] == Field("value") && (|t| == 2 ==> t[0].Lit?)
    requires Get(fields, "value") == Some(v)
    ensures Fill(t, fields) == Ok((if |t| == 2 then t[0].s else "") + ToStr(v))
  {
    FillField(fields, v);
    if |t| == 2 {
      assert t[1..] == [Field("value")];
    } else {
      assert t == [Field("value")];
      assert "" + ToStr(v) == ToStr(v);
    }
  }

  /** The template `{value}` alone renders `str(value)`. */
  lemma FillField(fields: PyDict, v: Value)
    requires Get(fields, "value") == Some(v)
    ensures Fill([Field("value")], fields) == Ok(ToStr(v))
  {
    assert [Field("value")][1..] == [];
    assert ToStr(v) + "" == ToStr(v);
  }

  /** Which kinds those are. */
  lemma ValueOnlyKinds()
    ensures ValueOnly("version") && ValueOnly("icy_meta") && ValueOnly("icy_name") &&
            ValueOnly("vol_set") && ValueOnly("play") && ValueOnly("pause") &&
            ValueOnly("keep_alive") && ValueOnly("dir_select")
  {
  }
}
