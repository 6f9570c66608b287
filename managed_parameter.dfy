/**
 * `ManagedParameter`: the stored form of a feed's three irradiance maps, each written as one
 * string `"key:value,key:value"`, and read back by a loop that keeps only well-formed pieces.
 */
module ManagedParameterCodec {
  import opened Wrappers
  import opened FeedModel
  import opened Text

  /**
   * The order in which Swift's dictionary happens to list the entries of `d`: every key
   * exactly once. Swift leaves this order unspecified, so the model takes it as an input.
   */
  predicate IsIterationOrder(order: seq<string>, d: map<string, Double>) {
    && |order| == |d|
    && (forall k <- order :: k in d)
    && (forall k <- d.Keys :: k in order)
  }

  /** The piece `"key:value"` written for one entry. */
  function EntryText(key: string, value: Double, show: Double -> string): (piece: string)
    ensures |piece| == |key| + 1 + |show(value)|
  {
    key + [':'] + show(value)
  }

  /** The pieces written for `d`, one per entry, in iteration order. */
  function EntryTexts(d: map<string, Double>, order: seq<string>, show: Double -> string): (pieces: seq<string>)
    requires IsIterationOrder(order, d)
    ensures |pieces| == |d|
    ensures forall i :: 0 <= i < |order| ==> pieces[i] == EntryText(order[i], d[order[i]], show)
  {
    seq(|order|, i requires 0 <= i < |order| => EntryText(order[i], d[order[i]], show))
  }

  /** `Dictionary.toString()`: the entry pieces joined by `,`. */
  function ToString(d: map<string, Double>, order: seq<string>, show: Double -> string): (s: string)
    requires IsIterationOrder(order, d)
    ensures d == map[] ==> s == []
  {
    Join(EntryTexts(d, order, show), ',')
  }

  /**
   * What `toDictionary` makes of one comma-separated piece: an entry when the piece splits
   * on `:` into exactly two (non-empty) parts and the second parses; nothing otherwise.
   */
  function Entry(piece: string, parse: string -> Option<Double>): (entry: Option<(string, Double)>)
    ensures entry.Some? <==> |Split(piece, ':')| == 2 && parse(Split(piece, ':')[1]).Some?
    ensures entry.Some? ==> entry.value.0 != [] && ':' !in entry.value.0
  {
    var pair := Split(piece, ':');
    if |pair| == 2 && parse(pair[1]).Some? then
      assert pair[0] in pair;
      Some((pair[0], parse(pair[1]).value))
    else None
  }

  /** The dictionary `toDictionary`'s loop has built after visiting `pieces`, left to right. */
  function Parsed(pieces: seq<string>, parse: string -> Option<Double>): (d: map<string, Double>)
  {
    if pieces == [] then map[]
    else
      var d := Parsed(pieces[..|pieces| - 1], parse);
      match Entry(pieces[|pieces| - 1], parse)
      case None => d
      case Some((key, value)) => d[key := value]
  }

  /** `String.toDictionary()`. It never yields nil. */
  method ToDictionary(s: string, parse: string -> Option<Double>) returns (dictionary: Option<map<string, Double>>)
    ensures dictionary == Some(Parsed(Split(s, ','), parse))
  {
    var pieces := Split(s, ',');
    var pairs := MapSeq(pieces, piece => Split(piece, ':'));
    var d: map<string, Double> := map[];
    for i := 0 to |pairs|
      invariant d == Parsed(pieces[..i], parse)
    {
      var pair := pairs[i];
      if |pair| == 2 && parse(pair[1]).Some? {
        d := d[pair[0] := parse(pair[1]).value];
      }
      assert pieces[..i + 1][..i] == pieces[..i];
    }
    assert pieces[..|pairs|] == pieces;
    return Some(d);
  }

  /** The empty string reads back as the empty dictionary. */
  lemma EmptyStringIsEmptyDictionary(parse: string -> Option<Double>)
    ensures Parsed(Split([], ','), parse) == map[]
  {
    assert Pieces([], ',') == [[]];
  }

  /** A key is present exactly when some piece is a well-formed entry for it; all other pieces are dropped. */
  lemma {:induction false} KeptKeys(pieces: seq<string>, parse: string -> Option<Double>, key: string)
    ensures key in Parsed(pieces, parse) <==>
              exists j :: 0 <= j < |pieces| && Entry(pieces[j], parse).Some? && Entry(pieces[j], parse).value.0 == key
  {
    if pieces != [] {
      var n := |pieces| - 1;
      var init := pieces[..n];
      KeptKeys(init, parse, key);
      forall j | 0 <= j < n ensures init[j] == pieces[j] { }
      if key in Parsed(pieces, parse) && key !in Parsed(init, parse) {
        assert Entry(pieces[n], parse).Some? && Entry(pieces[n], parse).value.0 == key;
      }
    }
  }

  /** When a key occurs in several well-formed pieces, the last one, left to right, wins. */
  lemma {:induction false} LastEntryWins(pieces: seq<string>, parse: string -> Option<Double>, j: nat, key: string, value: Double)
    requires j < |pieces| && Entry(pieces[j], parse) == Some((key, value))
    requires forall i :: j < i < |pieces| && Entry(pieces[i], parse).Some? ==> Entry(pieces[i], parse).value.0 != key
    ensures key in Parsed(pieces, parse) && Parsed(pieces, parse)[key] == value
  {
    var n := |pieces| - 1;
    if j < n {
      var init := pieces[..n];
      forall i | j < i < |init| && Entry(init[i], parse).Some? ensures Entry(init[i], parse).value.0 != key {
        assert init[i] == pieces[i];
      }
      LastEntryWins(init, parse, j, key, value);
    }
  }

  /** A key the round trip can carry: non-empty and free of both separators. */
  predicate StorableKey(key: string) {
    key != [] && ',' !in key && ':' !in key
  }

  /** Every entry of `d` can be written and read back. */
  predicate Storable(d: map<string, Double>, show: Double -> string, parse: string -> Option<Double>) {
    forall k | k in d :: StorableKey(k) && Reparses(d[k], show, parse)
  }

  /** One written entry splits on `:` into its key and value texts and reads back as that entry. */
  lemma EntryOfEntryText(key: string, value: Double, show: Double -> string, parse: string -> Option<Double>)
    requires StorableKey(key) && Reparses(value, show, parse)
    ensures Entry(EntryText(key, value, show), parse) == Some((key, value))
  {
    assert Join([key, show(value)], ':') == EntryText(key, value, show);
    SplitJoin([key, show(value)], ':');
  }

  /** Reading back a run of written entries gives those entries, the later of two equal keys winning. */
  lemma {:induction false} ParsedOfEntryTexts(d: map<string, Double>, order: seq<string>, pieces: seq<string>,
                                              parse: string -> Option<Double>)
    requires |pieces| == |order|
    requires forall k <- order :: k in d
    requires forall i :: 0 <= i < |pieces| ==> Entry(pieces[i], parse) == Some((order[i], d[order[i]]))
    ensures Parsed(pieces, parse) == map k | k in order :: d[k]
  {
    if pieces != [] {
      var n := |pieces| - 1;
      ParsedOfEntryTexts(d, order[..n], pieces[..n], parse);
      assert pieces[..n] + [pieces[n]] == pieces;
      assert forall k :: k in order <==> k in order[..n] || k == order[n];
    }
  }

  /**
   * Round trip of `toString` and `toDictionary`: a dictionary whose keys are non-empty and
   * free of `,` and `:`, and whose values' texts parse back to them, is read back unchanged,
   * whatever order its entries were written in.
   */
  lemma RoundTrip(d: map<string, Double>, order: seq<string>, show: Double -> string, parse: string -> Option<Double>)
    requires IsIterationOrder(order, d)
    requires Storable(d, show, parse)
    ensures Parsed(Split(ToString(d, order, show), ','), parse) == d
  {
    var pieces := EntryTexts(d, order, show);
    forall p <- pieces ensures p != [] && ',' !in p {
      var i :| 0 <= i < |pieces| && pieces[i] == p;
      assert order[i] in d;
    }
    SplitJoin(pieces, ',');
    forall i | 0 <= i < |pieces| ensures Entry(pieces[i], parse) == Some((order[i], d[order[i]])) {
      assert order[i] in d;
      EntryOfEntryText(order[i], d[order[i]], show, parse);
    }
    ParsedOfEntryTexts(d, order, pieces, parse);
  }

  /** A stored optional map read back: an absent text stays absent. */
  function Decoded(text: Option<string>, parse: string -> Option<Double>): (d: Option<map<string, Double>>)
    ensures d.Some? <==> text.Some?
  {
    match text
    case None => None
    case Some(s) => Some(Parsed(Split(s, ','), parse))
  }

  /** An optional map written out: an absent map stays absent. */
  function Encoded(d: Option<map<string, Double>>, order: seq<string>, show: Double -> string): (text: Option<string>)
    requires d.Some? ==> IsIterationOrder(order, d.value)
    ensures text.Some? <==> d.Some?
  {
    match d
    case None => None
    case Some(m) => Some(ToString(m, order, show))
  }

  /** The iteration orders of the three maps of one `Parameter`. */
  datatype IterationOrders = IterationOrders(dni: seq<string>, dwn: seq<string>, diff: seq<string>)

  predicate OrdersFit(parameter: Parameter, orders: IterationOrders) {
    && (parameter.allskySfcSwDni.Some? ==> IsIterationOrder(orders.dni, parameter.allskySfcSwDni.value))
    && (parameter.allskySfcSwDwn.Some? ==> IsIterationOrder(orders.dwn, parameter.allskySfcSwDwn.value))
    && (parameter.allskySfcSwDiff.Some? ==> IsIterationOrder(orders.diff, parameter.allskySfcSwDiff.value))
  }

  /** Every present map of `parameter` can be written and read back. */
  predicate StorableParameter(parameter: Parameter, show: Double -> string, parse: string -> Option<Double>) {
    && (parameter.allskySfcSwDni.Some? ==> Storable(parameter.allskySfcSwDni.value, show, parse))
    && (parameter.allskySfcSwDwn.Some? ==> Storable(parameter.allskySfcSwDwn.value, show, parse))
    && (parameter.allskySfcSwDiff.Some? ==> Storable(parameter.allskySfcSwDiff.value, show, parse))
  }

  /** One optional map written and read back is unchanged. */
  lemma DecodedEncoded(d: Option<map<string, Double>>, order: seq<string>, show: Double -> string, parse: string -> Option<Double>)
    requires d.Some? ==> IsIterationOrder(order, d.value) && Storable(d.value, show, parse)
    ensures Decoded(Encoded(d, order, show), parse) == d
  {
    if d.Some? {
      RoundTrip(d.value, order, show, parse);
    }
  }

  /** The managed object: three optional text fields, one per irradiance map. */
  class ManagedParameter {
    var allskySfcSwDiff: Option<string>
    var allskySfcSwDni: Option<string>
    var allskySfcSwDwn: Option<string>

    /** A new object in the context, all fields unset. */
    constructor ()
      ensures allskySfcSwDiff.None? && allskySfcSwDni.None? && allskySfcSwDwn.None?
    {
      allskySfcSwDiff, allskySfcSwDni, allskySfcSwDwn := None, None, None;
    }

    /** `ManagedParameter.local`: each stored text through `toDictionary`, an unset field staying nil. */
    method Local(parse: string -> Option<Double>) returns (parameter: Parameter)
      ensures parameter == Parameter(Decoded(allskySfcSwDni, parse), Decoded(allskySfcSwDwn, parse),
                                     Decoded(allskySfcSwDiff, parse))
    {
      var dni := Field(allskySfcSwDni, parse);
      var dwn := Field(allskySfcSwDwn, parse);
      var diff := Field(allskySfcSwDiff, parse);
      parameter := Parameter(dni, dwn, diff);
    }

    /** `ManagedParameter.insert(_:in:)`: nil for nil, else a new object with each map written independently. */
    static method Insert(parameter: Option<Parameter>, orders: IterationOrders, show: Double -> string)
      returns (managed: ManagedParameter?)
      requires parameter.Some? ==> OrdersFit(parameter.value, orders)
      ensures managed == null <==> parameter.None?
      ensures managed != null ==>
                && fresh(managed)
                && managed.allskySfcSwDni == Encoded(parameter.value.allskySfcSwDni, orders.dni, show)
                && managed.allskySfcSwDwn == Encoded(parameter.value.allskySfcSwDwn, orders.dwn, show)
                && managed.allskySfcSwDiff == Encoded(parameter.value.allskySfcSwDiff, orders.diff, show)
    {
      if parameter.None? {
        return null;
      }
      var p := parameter.value;
      managed := new ManagedParameter();
      managed.allskySfcSwDni := Encoded(p.allskySfcSwDni, orders.dni, show);
      managed.allskySfcSwDwn := Encoded(p.allskySfcSwDwn, orders.dwn, show);
      managed.allskySfcSwDiff := Encoded(p.allskySfcSwDiff, orders.diff, show);
    }
  }

  /** `text?.toDictionary()`: optional chaining over the stored text. */
  method Field(text: Option<string>, parse: string -> Option<Double>) returns (d: Option<map<string, Double>>)
    ensures d == Decoded(text, parse)
  {
    match text {
      case None => d := None;
      case Some(s) => d := ToDictionary(s, parse);
    }
  }

  /**
   * A parameter stored and read back is unchanged when every present map can make the
   * round trip; an absent map stays absent.
   */
  method InsertThenLocal(parameter: Parameter, orders: IterationOrders, show: Double -> string,
                         parse: string -> Option<Double>) returns (back: Parameter)
    requires OrdersFit(parameter, orders)
    requires StorableParameter(parameter, show, parse)
    ensures back == parameter
  {
    var managed := ManagedParameter.Insert(Some(parameter), orders, show);
    back := managed.Local(parse);
    DecodedEncoded(parameter.allskySfcSwDni, orders.dni, show, parse);
    DecodedEncoded(parameter.allskySfcSwDwn, orders.dwn, show, parse);
    DecodedEncoded(parameter.allskySfcSwDiff, orders.diff, show, parse);
  }
}
