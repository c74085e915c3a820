/** The render-cache identity of an add-layer request: each component framed by its
    decimal byte length, so that any content is unambiguous. */
module AddLayer {
  import opened Text

  datatype Source = Source(tilesetId: string, json: string)

  datatype AddLayerRequest = AddLayerRequest(json: string, source: Option<Source>)

  function Frame(component: string): string {
    Decimal(|component|) + [':'] + component
  }

  function FrameAll(components: seq<string>): string {
    if components == [] then "" else Frame(components[0]) + FrameAll(components[1..])
  }

  function Components(a: AddLayerRequest): seq<string> {
    if a.source.Some? then [a.json, a.source.value.tilesetId, a.source.value.json] else [a.json]
  }

  /** `addlayer_identity`: frames appended one after another. */
  method Identity(a: AddLayerRequest) returns (identity: string)
    ensures identity == FrameAll(Components(a))
  {
    identity := "";
    identity := identity + Frame(a.json);
    if a.source.Some? {
      identity := identity + Frame(a.source.value.tilesetId);
      identity := identity + Frame(a.source.value.json);
      ThreeFrames(a.json, a.source.value.tilesetId, a.source.value.json);
    } else {
      assert [a.json][1..] == [];
    }
  }

  lemma ThreeFrames(a: string, b: string, c: string)
    ensures FrameAll([a, b, c]) == Frame(a) + Frame(b) + Frame(c)
  {
    hide Frame;
    assert [a, b, c][1..] == [b, c] && [b, c][1..] == [c] && [c][1..] == [];
    assert FrameAll([]) == "";
    assert FrameAll([c]) == Frame(c);
    assert FrameAll([b, c]) == Frame(b) + FrameAll([c]);
  }

  // ---- Reading back ------------------------------------------------------

  /** Splits one frame off the front. */
  function TakeFrame(s: string): Option<(string, string)> {
    match SplitOnce(s, ':')
    case None => None
    case Some((digits, rest)) =>
      match ParseUnsigned(digits, |rest|)
      case None => None
      case Some(n) => Some((rest[..n], rest[n..]))
  }

  lemma TakeFrameBack(component: string, rest: string)
    ensures TakeFrame(Frame(component) + rest) == Some((component, rest))
  {
    NotInDecimal(|component|, ':');
    SplitOnceAtFirst(Decimal(|component|), ':', component + rest);
    assert Frame(component) + rest == Decimal(|component|) + [':'] + (component + rest);
    DecimalRoundTrip(|component|, |component + rest|);
  }

  /** The framing is injective over any components and any number of them. */
  lemma {:induction false} FramingInjective(a: seq<string>, b: seq<string>)
    requires FrameAll(a) == FrameAll(b)
    ensures a == b
  {
    hide Frame, TakeFrame;
    if a != [] {
      TakeFrameBack(a[0], FrameAll(a[1..]));
    }
    if b != [] {
      TakeFrameBack(b[0], FrameAll(b[1..]));
    }
    NothingToTake();
    if a != [] && b != [] {
      FramingInjective(a[1..], b[1..]);
      assert a == [a[0]] + a[1..] && b == [b[0]] + b[1..];
    }
  }

  lemma NothingToTake()
    ensures TakeFrame("") == None
  {
  }

  /** Two requests share an identity only if they are the same request, with or
      without a request-local source. */
  lemma IdentityInjective(a: AddLayerRequest, b: AddLayerRequest)
    requires FrameAll(Components(a)) == FrameAll(Components(b))
    ensures a == b
  {
    hide FrameAll;
    FramingInjective(Components(a), Components(b));
    assert |Components(a)| == if a.source.Some? then 3 else 1;
    assert Components(a)[0] == a.json && Components(b)[0] == b.json;
    if a.source.Some? {
      assert Components(a)[1] == a.source.value.tilesetId && Components(b)[1] == b.source.value.tilesetId;
      assert Components(a)[2] == a.source.value.json && Components(b)[2] == b.source.value.json;
    }
  }
}
