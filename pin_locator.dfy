/**
 * Locating the pin object in a fetched page (extractMedia.js, lines 17-64).
 * The HTML parser is not modelled: a page is given as the text of its
 * `#__PWS_DATA__` element, if there is one, and the texts of its script
 * elements in document order. `JSON.parse` is an arbitrary partial function,
 * whose failure (None) stands for the exception the source catches.
 */
module PinLocator {
  import opened Wrappers
  import opened JsValue
  import opened JsString

  type Parser = string -> Option<Json>

  /** Where the Redux state keeps the pins, keyed by pin id. */
  const PinsPath: seq<string> := ["props", "initialReduxState", "pins"]
  /** The marker of the script that registers the pin's relay query. */
  const RelayMarker: string := "window.__PWS_RELAY_REGISTER_COMPLETED_REQUEST__"
  /** The text just before the JSON argument of the registering call ... */
  const OpenDelim: string := ", {"
  /** ... and the text at its end, whose first character closes the JSON. */
  const CloseDelim: string := "});"
  /** Where the relay response keeps the pin. */
  const RelayPinPath: seq<string> := ["data", "v3GetPinQuery", "data"]

  // ---------------------------------------------------------------------
  // Strategy 1: the `#__PWS_DATA__` Redux state
  // ---------------------------------------------------------------------

  /** The value strategy 1 assigns to the pin, or None when it assigns
      nothing (no or empty data block, unparsable text, no truthy `pins`,
      `pins` without own keys). The value may still be falsy. */
  function PinFromDataBlock(dataBlock: Option<string>, parse: Parser): Val
  {
    if dataBlock.None? || dataBlock.value == "" then None
    else match parse(dataBlock.value)
      case None => None
      case Some(data) =>
        var pins := GetPath(Some(data), PinsPath);
        if Truthy(pins) then FirstOwnValue(pins.value) else None
  }

  /** Strategy 1 takes the value of the first key of `pins` in Object.keys
      order: the first key as written, unless some key is an array index,
      in which case the numerically smallest such key. */
  lemma DataBlockTakesFirstKey(text: string, parse: Parser, fields: seq<(string, Json)>)
    requires text != "" && parse(text).Some?
    requires GetPath(parse(text), PinsPath) == Some(Obj(fields))
    requires |fields| > 0
    ensures PinFromDataBlock(Some(text), parse).Some?
    ensures exists i :: 0 <= i < |fields|
                        && PinFromDataBlock(Some(text), parse) == Lookup(fields, fields[i].0)
                        && (|| (&& IsIndexKey(fields[i].0)
                                && forall j :: 0 <= j < |fields| && IsIndexKey(fields[j].0) ==>
                                     DecimalValue(fields[i].0) <= DecimalValue(fields[j].0))
                            || (i == 0 && forall j :: 0 <= j < |fields| ==> !IsIndexKey(fields[j].0)))
    ensures (forall i :: 0 <= i < |fields| ==> !IsIndexKey(fields[i].0)) ==>
              PinFromDataBlock(Some(text), parse) == Lookup(fields, fields[0].0)
  {
    var key := FirstOwnKey(fields).value;
    assert PinFromDataBlock(Some(text), parse) == Lookup(fields, key);
    if IsIndexKey(key) {
      var i :| 0 <= i < |fields| && fields[i].0 == key;
      assert Lookup(fields, fields[i].0) == Lookup(fields, key);
    } else {
      assert fields[0].0 == key;
      assert Lookup(fields, fields[0].0) == Lookup(fields, key);
    }
  }

  // ---------------------------------------------------------------------
  // Strategy 2: the relay script
  // ---------------------------------------------------------------------

  /** The text strategy 2 hands to `JSON.parse`: from two characters past the
      first `", {"` through the first character of the last `"});"`, or
      None when either delimiter is missing. */
  function RelaySlice(content: string): Option<string>
  {
    var startIdx := IndexOf(content, OpenDelim);
    var endIdx := LastIndexOf(content, CloseDelim);
    if startIdx != -1 && endIdx != -1 then Some(Substring(content, startIdx + 2, endIdx + 1))
    else None
  }

  /** The slice exists exactly when both delimiters occur. It then runs from
      the `{` of the first `", {"` through the `}` of the last `"});"`; or,
      when the last `"});"` lies before the first `", {"`, `substring`
      swaps its bounds and the slice is the text between them. */
  lemma RelaySliceSpan(content: string)
    ensures RelaySlice(content).Some? <==> Includes(content, OpenDelim) && Includes(content, CloseDelim)
    ensures RelaySlice(content).Some? ==>
              var start := IndexOf(content, OpenDelim);
              var end := LastIndexOf(content, CloseDelim);
              var slice := RelaySlice(content).value;
              || (start + 2 <= end && slice == content[start + 2..end + 1]
                  && slice[0] == '{' && slice[|slice| - 1] == '}')
              || (end < start && slice == content[end + 1..start + 2])
  {
    var start := IndexOf(content, OpenDelim);
    var end := LastIndexOf(content, CloseDelim);
    if start != -1 && end != -1 {
      assert content[start..start + 3] == OpenDelim;
      assert content[start] == ',' && content[start + 1] == ' ' && content[start + 2] == '{';
      assert content[end..end + 3] == CloseDelim;
      assert content[end] == '}';
    }
  }

  /** What one script block yields: the truthy `data.v3GetPinQuery.data` of
      its parsed slice, or None when the block lacks the marker, a
      delimiter, a parsable slice or that value. */
  function RelayHit(content: string, parse: Parser): (r: Val)
    ensures r.Some? ==> Truthy(r)
  {
    if !Includes(content, RelayMarker) then None
    else match RelaySlice(content)
      case None => None
      case Some(json) =>
        match parse(json)
        case None => None
        case Some(data) =>
          var pin := GetPath(Some(data), RelayPinPath);
          if Truthy(pin) then pin else None
  }

  /** A block yields a pin only if it carries the marker and both
      delimiters, its slice parses, and `data.v3GetPinQuery.data` of the
      parsed value is truthy; that value is then the pin. */
  lemma RelayHitConditions(content: string, parse: Parser)
    ensures RelayHit(content, parse).Some? <==>
              && Includes(content, RelayMarker)
              && RelaySlice(content).Some?
              && Truthy(GetPath(parse(RelaySlice(content).value), RelayPinPath))
    ensures RelayHit(content, parse).Some? ==>
              RelayHit(content, parse) == GetPath(parse(RelaySlice(content).value), RelayPinPath)
  {
  }

  /** The scan's answer: the hit of the first block that has one. */
  function FirstRelayHit(scripts: seq<string>, parse: Parser): (r: Val)
    ensures r.Some? ==> Truthy(r)
  {
    if scripts == [] then None
    else
      var hit := RelayHit(scripts[0], parse);
      if hit.Some? then hit else FirstRelayHit(scripts[1..], parse)
  }

  /** Strategy 2 as the source runs it: visit the script blocks in order and
      stop at the first one that yields the pin (the callback's
      `return false`); blocks that fail are passed over. */
  method ScanRelayScripts(scripts: seq<string>, parse: Parser) returns (pin: Val)
    ensures pin == FirstRelayHit(scripts, parse)
    ensures pin.Some? ==> Truthy(pin) && exists i :: 0 <= i < |scripts| && RelayHit(scripts[i], parse) == pin
  {
    pin := None;
    var i := 0;
    while i < |scripts|
      invariant 0 <= i <= |scripts|
      invariant FirstRelayHit(scripts, parse) == FirstRelayHit(scripts[i..], parse)
    {
      var hit := RelayHit(scripts[i], parse);
      if hit.Some? {
        pin := hit;
        return;
      }
      assert scripts[i..][1..] == scripts[i + 1..];
      i := i + 1;
    }
  }

  /** Block `i` is the first block of the page that yields the pin. */
  predicate IsFirstRelayHit(scripts: seq<string>, parse: Parser, i: int) {
    && 0 <= i < |scripts|
    && RelayHit(scripts[i], parse).Some?
    && forall j :: 0 <= j < i ==> RelayHit(scripts[j], parse).None?
  }

  /** The scan finds a pin exactly when some block yields one. */
  lemma {:induction false} FirstRelayHitExists(scripts: seq<string>, parse: Parser)
    ensures FirstRelayHit(scripts, parse).Some? <==>
              exists i :: 0 <= i < |scripts| && RelayHit(scripts[i], parse).Some?
  {
    if scripts != [] {
      var rest := scripts[1..];
      FirstRelayHitExists(rest, parse);
      if RelayHit(scripts[0], parse).None? {
        assert forall i :: 1 <= i < |scripts| ==> RelayHit(scripts[i], parse) == RelayHit(rest[i - 1], parse);
      }
    }
  }

  /** The pin the scan finds is the one of the first block that yields one. */
  lemma {:induction false} FirstRelayHitIsFirst(scripts: seq<string>, parse: Parser)
    ensures forall i :: IsFirstRelayHit(scripts, parse, i) ==>
              FirstRelayHit(scripts, parse) == RelayHit(scripts[i], parse)
  {
    if scripts != [] {
      var rest := scripts[1..];
      FirstRelayHitIsFirst(rest, parse);
      forall i | IsFirstRelayHit(scripts, parse, i)
        ensures FirstRelayHit(scripts, parse) == RelayHit(scripts[i], parse)
      {
        if i > 0 {
          assert IsFirstRelayHit(rest, parse, i - 1) by {
            assert forall j :: 0 <= j < i - 1 ==> rest[j] == scripts[j + 1];
          }
        }
      }
    }
  }

  /** Scanning two runs of blocks: the second run is consulted only when the
      first yields nothing. */
  lemma {:induction false} FirstRelayHitAppend(xs: seq<string>, ys: seq<string>, parse: Parser)
    ensures FirstRelayHit(xs + ys, parse) ==
              if FirstRelayHit(xs, parse).Some? then FirstRelayHit(xs, parse) else FirstRelayHit(ys, parse)
  {
    if xs == [] {
      assert xs + ys == ys;
    } else {
      assert (xs + ys)[0] == xs[0];
      assert (xs + ys)[1..] == xs[1..] + ys;
      FirstRelayHitAppend(xs[1..], ys, parse);
    }
  }

  /** A block that yields nothing (no marker, a missing delimiter, a slice
      that does not parse, no pin in it) does not affect the scan: scanning
      goes on past it. */
  lemma ScanSkipsMisses(before: seq<string>, content: string, after: seq<string>, parse: Parser)
    requires RelayHit(content, parse).None?
    ensures FirstRelayHit(before + [content] + after, parse) == FirstRelayHit(before + after, parse)
  {
    FirstRelayHitAppend(before, [content] + after, parse);
    FirstRelayHitAppend(before, after, parse);
    assert before + [content] + after == before + ([content] + after);
    assert ([content] + after)[1..] == after;
  }

  /** Blocks without the marker are never considered: removing one, or
      adding one anywhere, leaves the scan's result unchanged. */
  lemma ScanIgnoresUnmarked(before: seq<string>, content: string, after: seq<string>, parse: Parser)
    requires !Includes(content, RelayMarker)
    ensures FirstRelayHit(before + [content] + after, parse) == FirstRelayHit(before + after, parse)
  {
    RelayHitConditions(content, parse);
    ScanSkipsMisses(before, content, after, parse);
  }

  // ---------------------------------------------------------------------
  // Both strategies
  // ---------------------------------------------------------------------

  /** The pin object the extractor goes on with: strategy 1's value when it
      is truthy, otherwise the scan's; None stands for "Pin data not found". */
  function LocatePin(dataBlock: Option<string>, scripts: seq<string>, parse: Parser): (r: Val)
    ensures r.Some? ==> Truthy(r)
  {
    var fromBlock := PinFromDataBlock(dataBlock, parse);
    if Truthy(fromBlock) then fromBlock else FirstRelayHit(scripts, parse)
  }

  /** When strategy 1 yields a truthy pin the script blocks are never
      consulted; otherwise (in particular when there is no data block) the
      pin is whatever the scan finds. */
  lemma StrategyOrder(dataBlock: Option<string>, scripts: seq<string>, otherScripts: seq<string>, parse: Parser)
    ensures Truthy(PinFromDataBlock(dataBlock, parse)) ==>
              LocatePin(dataBlock, scripts, parse) == PinFromDataBlock(dataBlock, parse)
              && LocatePin(dataBlock, otherScripts, parse) == LocatePin(dataBlock, scripts, parse)
    ensures !Truthy(PinFromDataBlock(dataBlock, parse)) ==>
              LocatePin(dataBlock, scripts, parse) == FirstRelayHit(scripts, parse)
    ensures dataBlock.None? ==> LocatePin(dataBlock, scripts, parse) == FirstRelayHit(scripts, parse)
  {
  }
}
