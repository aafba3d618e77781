/**
 * The vocabulary the hooks share with the generic XML engine: attributes of a
 * start element, the tokens a hook reads or writes by hand, and the opaque
 * payload the engine encodes or decodes for a struct a hook hands to it.
 * Also getAttr and the attribute loop every per-member decoder repeats.
 */
module Xml {
  import opened Results

  /** An attribute of a start element; only its local name is compared. */
  datatype Attr = Attr(name: string, value: string)

  /** A token of the stream the decoder hands to a hook, or that a hook writes. */
  datatype Token =
    | StartElement(name: string, attrs: seq<Attr>)
    | EndElement(name: string)
    | CharData(text: string)
    | Comment(text: string)

  /**
   * What the generic engine writes for a payload struct, or decodes into one.
   * The hooks never look inside it: they pass it through unchanged.
   */
  datatype Body = Body(attrs: seq<Attr>, content: seq<Token>)

  /** The payload of a zero-valued struct: no attribute and no child. */
  const EmptyBody := Body([], [])

  /** What a hook appends for a string field that is written only when non-empty. */
  function StrAttr(name: string, value: string): (r: seq<Attr>)
    ensures r == [] <==> value == ""
    ensures r != [] ==> r == [Attr(name, value)]
  {
    if value != "" then [Attr(name, value)] else []
  }

  /** The value of the first attribute called `name`, if there is one. */
  function Lookup(attrs: seq<Attr>, name: string): (r: Option<string>)
    ensures r.None? <==> forall i | 0 <= i < |attrs| :: attrs[i].name != name
    ensures r.Some? ==> exists i | 0 <= i < |attrs| ::
      attrs[i] == Attr(name, r.value) && forall j | 0 <= j < i :: attrs[j].name != name
    decreases |attrs|
  {
    if attrs == [] then None
    else if attrs[0].name == name then Some(attrs[0].value)
    else
      var r := Lookup(attrs[1..], name);
      assert forall i | 1 <= i < |attrs| :: attrs[i] == attrs[1..][i - 1];
      r
  }

  /** An attribute appended after the others is found only when no earlier one has the name. */
  lemma {:induction false} LookupAppend(xs: seq<Attr>, ys: seq<Attr>, name: string)
    ensures Lookup(xs + ys, name) == if Lookup(xs, name).Some? then Lookup(xs, name) else Lookup(ys, name)
    decreases |xs|
  {
    if xs == [] {
      assert xs + ys == ys;
    } else {
      assert (xs + ys)[0] == xs[0];
      assert (xs + ys)[1..] == xs[1..] + ys;
      LookupAppend(xs[1..], ys, name);
    }
  }

  /** getAttr: a first-match search over the attributes of a start element. */
  method GetAttr(attrs: seq<Attr>, name: string) returns (value: string, ok: bool)
    ensures ok <==> Lookup(attrs, name).Some?
    ensures value == Lookup(attrs, name).GetOr("")
  {
    var i := 0;
    while i < |attrs|
      invariant 0 <= i <= |attrs|
      invariant Lookup(attrs[i..], name) == Lookup(attrs, name)
    {
      if attrs[i].name == name {
        return attrs[i].value, true;
      }
      assert attrs[i..][1..] == attrs[i + 1..];
      i := i + 1;
    }
    return "", false;
  }

  /** The attributes whose name is in `names`, in their original order. */
  function Keep(attrs: seq<Attr>, names: set<string>): (r: seq<Attr>)
    ensures |r| <= |attrs|
    ensures forall a :: a in r <==> a in attrs && a.name in names
    decreases |attrs|
  {
    if attrs == [] then []
    else if attrs[0].name in names then [attrs[0]] + Keep(attrs[1..], names)
    else Keep(attrs[1..], names)
  }

  /**
   * The shape of every attribute loop of the decoders: `step` is the if/else
   * chain on the attribute's name, applied in document order; the first error
   * ends the loop and is returned.
   */
  function FoldAttrs<T>(from: T, attrs: seq<Attr>, step: (T, Attr) -> Result<T>): Result<T>
    decreases |attrs|
  {
    if attrs == [] then Ok(from)
    else
      match step(from, attrs[0])
      case Err(e) => Err(e)
      case Ok(next) => FoldAttrs(next, attrs[1..], step)
  }

  /** `for _, attr := range start.Attr { ... }`, returning the first error. */
  method UnmarshalAttrs<T>(from: T, attrs: seq<Attr>, step: (T, Attr) -> Result<T>)
    returns (r: Result<T>)
    ensures r == FoldAttrs(from, attrs, step)
  {
    var receiver := from;
    var i := 0;
    while i < |attrs|
      invariant 0 <= i <= |attrs|
      invariant FoldAttrs(receiver, attrs[i..], step) == FoldAttrs(from, attrs, step)
    {
      var next := step(receiver, attrs[i]);
      if next.Err? {
        return Err(next.error);
      }
      assert attrs[i..][1..] == attrs[i + 1..];
      receiver := next.value;
      i := i + 1;
    }
    return Ok(receiver);
  }

  /** Running the loop over two lists is running it over the first, then the second. */
  lemma {:induction false} FoldAppend<T>(from: T, xs: seq<Attr>, ys: seq<Attr>, step: (T, Attr) -> Result<T>)
    ensures FoldAttrs(from, xs + ys, step) ==
      match FoldAttrs(from, xs, step)
      case Err(e) => Err(e)
      case Ok(mid) => FoldAttrs(mid, ys, step)
    decreases |xs|
  {
    if xs == [] {
      assert xs + ys == ys;
    } else {
      assert (xs + ys)[0] == xs[0];
      assert (xs + ys)[1..] == xs[1..] + ys;
      match step(from, xs[0])
      case Err(_) =>
      case Ok(next) => FoldAppend(next, xs[1..], ys, step);
    }
  }

  /**
   * A loop whose chain leaves the receiver alone for every name outside
   * `names` gives the same result on the attributes it knows only.
   */
  lemma {:induction false} FoldIgnoresForeign<T>(from: T, attrs: seq<Attr>, names: set<string>, step: (T, Attr) -> Result<T>)
    requires forall x: T, a: Attr | a.name !in names :: step(x, a) == Ok(x)
    ensures FoldAttrs(from, attrs, step) == FoldAttrs(from, Keep(attrs, names), step)
    decreases |attrs|
  {
    if attrs != [] {
      if attrs[0].name in names {
        var kept := Keep(attrs, names);
        assert kept == [attrs[0]] + Keep(attrs[1..], names);
        assert kept[0] == attrs[0] && kept[1..] == Keep(attrs[1..], names);
        match step(from, attrs[0])
        case Err(_) =>
        case Ok(next) => FoldIgnoresForeign(next, attrs[1..], names, step);
      } else {
        FoldIgnoresForeign(from, attrs[1..], names, step);
      }
    }
  }

  /**
   * When whether a step fails depends on the attribute only, the loop
   * succeeds exactly when every attribute is accepted.
   */
  lemma {:induction false} FoldOkIff<T>(from: T, attrs: seq<Attr>, step: (T, Attr) -> Result<T>, accepts: Attr -> bool)
    requires forall x: T, a: Attr :: step(x, a).Ok? <==> accepts(a)
    ensures FoldAttrs(from, attrs, step).Ok? <==> forall i | 0 <= i < |attrs| :: accepts(attrs[i])
    decreases |attrs|
  {
    if attrs != [] {
      assert forall i | 1 <= i < |attrs| :: attrs[i] == attrs[1..][i - 1];
      match step(from, attrs[0])
      case Err(_) =>
      case Ok(next) => FoldOkIff(next, attrs[1..], step, accepts);
    }
  }

  /** A loop over at most one attribute is that attribute's step. */
  lemma FoldPiece<T>(x: T, y: T, piece: seq<Attr>, step: (T, Attr) -> Result<T>)
    requires |piece| <= 1
    requires piece == [] ==> y == x
    requires piece != [] ==> step(x, piece[0]) == Ok(y)
    ensures FoldAttrs(x, piece, step) == Ok(y)
  {
    if piece != [] {
      assert piece[1..] == [];
    }
  }

  /** Two successful loops in a row are one loop over both lists. */
  lemma FoldChain<T>(x: T, xs: seq<Attr>, y: T, ys: seq<Attr>, z: T, step: (T, Attr) -> Result<T>)
    requires FoldAttrs(x, xs, step) == Ok(y)
    requires FoldAttrs(y, ys, step) == Ok(z)
    ensures FoldAttrs(x, xs + ys, step) == Ok(z)
  {
    FoldAppend(x, xs, ys, step);
  }

  /**
   * What a decoding hook hands back to the engine: the receiver it produced
   * (or its error), and whether it read its element through to the end tag
   * (by decoding it, by d.Skip(), or by a token loop that runs to the end).
   */
  datatype Outcome<T> = Outcome(result: Result<T>, consumed: bool)

  /**
   * The engine's check after a hook returns: an error is passed on, and a
   * success that leaves the element partly unread becomes an error naming
   * the element.
   */
  function AfterHook<T>(element: string, o: Outcome<T>): (r: Result<T>)
    ensures o.result.Err? ==> r == o.result
    ensures o.result.Ok? ==> (r == o.result <==> o.consumed)
    ensures r.Err? && o.result.Ok? ==> r.error == NotConsumed(element)
  {
    if o.result.Ok? && !o.consumed then Err(NotConsumed(element)) else o.result
  }
}
