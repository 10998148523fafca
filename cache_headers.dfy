/**
 * `setCacheHeaders`: the Cache-Control value built from cache options, with
 * the response directives of section 5.2.2 of RFC 9111 (`public`, `private`,
 * `no-store`, `no-cache`, `must-revalidate`, `max-age`, `s-maxage`) and
 * `stale-while-revalidate` from section 3 of RFC 5861, plus the weak ETag
 * added to responses that have a body. Durations are whole seconds.
 */
module CacheHeaders {
  import opened Common
  import opened Text

  /** Every field is optional, as in the TypeScript options object. */
  datatype CacheOptions = CacheOptions(
    maxAge: Option<int>,
    sMaxAge: Option<int>,
    staleWhileRevalidate: Option<int>,
    isPrivate: Option<bool>,
    noStore: Option<bool>,
    mustRevalidate: Option<bool>)

  const NoOptions := CacheOptions(None, None, None, None, None, None)

  const NoStoreValue := "no-store, no-cache, must-revalidate"

  /** The defaults of the destructuring: `sMaxAge` falls back to `maxAge`, the rest to 0 / false. */
  function MaxAge(o: CacheOptions): int { o.maxAge.GetOr(0) }
  function SMaxAge(o: CacheOptions): int { o.sMaxAge.GetOr(MaxAge(o)) }
  function StaleWhileRevalidate(o: CacheOptions): int { o.staleWhileRevalidate.GetOr(0) }
  function IsPrivate(o: CacheOptions): bool { o.isPrivate.GetOr(false) }
  function NoStore(o: CacheOptions): bool { o.noStore.GetOr(false) }
  function MustRevalidate(o: CacheOptions): bool { o.mustRevalidate.GetOr(false) }

  /** One Cache-Control directive. */
  datatype Directive = Public | Private | MaxAgeOf(seconds: nat) | SMaxAgeOf(seconds: nat)
                     | StaleWhileRevalidateOf(seconds: nat) | MustRevalidateFlag
  {
    function Render(): string {
      match this
      case Public => "public"
      case Private => "private"
      case MaxAgeOf(n) => "max-age=" + NatToString(n)
      case SMaxAgeOf(n) => "s-maxage=" + NatToString(n)
      case StaleWhileRevalidateOf(n) => "stale-while-revalidate=" + NatToString(n)
      case MustRevalidateFlag => "must-revalidate"
    }

    /** Where the directive belongs in the header. */
    function Rank(): int {
      match this
      case Public => 0
      case Private => 0
      case MaxAgeOf(_) => 1
      case SMaxAgeOf(_) => 2
      case StaleWhileRevalidateOf(_) => 3
      case MustRevalidateFlag => 4
    }
  }

  /**
   * The directive list, pushed step by step. Each directive is present
   * exactly when its option asks for it, and they come in the fixed order
   * visibility, max-age, s-maxage, stale-while-revalidate, must-revalidate.
   */
  method BuildDirectives(o: CacheOptions) returns (directives: seq<Directive>)
    ensures directives == Directives(o)
  {
    directives := [];
    directives := directives + [if IsPrivate(o) then Private else Public];
    if MaxAge(o) > 0 {
      directives := directives + [MaxAgeOf(MaxAge(o))];
    }
    assert directives == WithMaxAge(o);
    if SMaxAge(o) > 0 && !IsPrivate(o) {
      directives := directives + [SMaxAgeOf(SMaxAge(o))];
    }
    assert directives == WithSMaxAge(o);
    if StaleWhileRevalidate(o) > 0 {
      directives := directives + [StaleWhileRevalidateOf(StaleWhileRevalidate(o))];
    }
    assert directives == WithStale(o);
    if MustRevalidate(o) {
      directives := directives + [MustRevalidateFlag];
    }
  }

  function PushIf(ds: seq<Directive>, condition: bool, d: Directive): seq<Directive> {
    if condition then ds + [d] else ds
  }

  /** The visibility directive and `max-age`. */
  function WithMaxAge(o: CacheOptions): seq<Directive> {
    PushIf([if IsPrivate(o) then Private else Public], MaxAge(o) > 0, MaxAgeOf(if MaxAge(o) > 0 then MaxAge(o) else 0))
  }

  /** ... then `s-maxage`, for shared caches only. */
  function WithSMaxAge(o: CacheOptions): seq<Directive> {
    PushIf(WithMaxAge(o), SMaxAge(o) > 0 && !IsPrivate(o), SMaxAgeOf(if SMaxAge(o) > 0 then SMaxAge(o) else 0))
  }

  /** ... then `stale-while-revalidate`. */
  function WithStale(o: CacheOptions): seq<Directive> {
    PushIf(WithSMaxAge(o), StaleWhileRevalidate(o) > 0,
           StaleWhileRevalidateOf(if StaleWhileRevalidate(o) > 0 then StaleWhileRevalidate(o) else 0))
  }

  /** The same list as a value, for the header function and the lemmas. */
  function Directives(o: CacheOptions): seq<Directive> {
    PushIf(WithStale(o), MustRevalidate(o), MustRevalidateFlag)
  }

  /** Each directive is present exactly when its option asks for it; visibility comes first. */
  lemma DirectivesPresence(o: CacheOptions)
    ensures Directives(o)[0] == (if IsPrivate(o) then Private else Public)
    ensures forall n: nat :: MaxAgeOf(n) in Directives(o) <==> n == MaxAge(o) && n > 0
    ensures forall n: nat :: SMaxAgeOf(n) in Directives(o) <==> n == SMaxAge(o) && n > 0 && !IsPrivate(o)
    ensures forall n: nat :: StaleWhileRevalidateOf(n) in Directives(o) <==> n == StaleWhileRevalidate(o) && n > 0
    ensures MustRevalidateFlag in Directives(o) <==> MustRevalidate(o)
  {
  }

  function RenderAll(ds: seq<Directive>): (r: seq<string>)
    ensures |r| == |ds| && forall i | 0 <= i < |ds| :: r[i] == ds[i].Render()
  {
    if ds == [] then [] else [ds[0].Render()] + RenderAll(ds[1..])
  }

  /** The Cache-Control value. */
  function CacheControl(o: CacheOptions): (v: string)
    ensures NoStore(o) ==> v == NoStoreValue
  {
    if NoStore(o) then NoStoreValue else Join(RenderAll(Directives(o)), ", ")
  }

  /** `W/"<timestamp>"`, the weak validator derived from the clock. */
  function WeakETag(now: nat): string {
    "W/\"" + NatToString(now) + "\""
  }

  /** The response whose headers `setCacheHeaders` sets in place. */
  class Response {
    var headers: map<string, string>
    const hasBody: bool

    constructor (headers: map<string, string>, hasBody: bool)
      ensures this.headers == headers && this.hasBody == hasBody
    {
      this.headers := headers;
      this.hasBody := hasBody;
    }
  }

  /**
   * Sets Cache-Control; with `noStore` nothing else is touched, otherwise an
   * ETag is set when the response has a body. `now` is the clock read.
   */
  method SetCacheHeaders(response: Response, options: CacheOptions, now: nat)
    modifies response
    ensures NoStore(options) ==> response.headers == old(response.headers)["Cache-Control" := NoStoreValue]
    ensures !NoStore(options) && response.hasBody ==>
              response.headers == old(response.headers)["Cache-Control" := CacheControl(options)]["ETag" := WeakETag(now)]
    ensures !NoStore(options) && !response.hasBody ==>
              response.headers == old(response.headers)["Cache-Control" := CacheControl(options)]
  {
    if NoStore(options) {
      response.headers := response.headers["Cache-Control" := NoStoreValue];
      return;
    }
    var directives := BuildDirectives(options);
    response.headers := response.headers["Cache-Control" := Join(RenderAll(directives), ", ")];
    if response.hasBody {
      response.headers := response.headers["ETag" := WeakETag(now)];
    }
  }

  // ----- Presets -----

  const NoCache := CacheOptions(None, None, None, None, Some(true), None)
  const ShortLived := CacheOptions(Some(60), None, Some(300), None, None, None)
  const Medium := CacheOptions(Some(300), Some(300), Some(3600), None, None, None)
  const LongLived := CacheOptions(Some(3600), Some(3600), Some(86400), None, None, None)
  const Static := CacheOptions(Some(31536000), Some(31536000), None, None, None, None)
  const UserData := CacheOptions(Some(60), None, None, Some(true), None, Some(true))
  const ApiResponse := CacheOptions(Some(120), Some(300), Some(3600), None, None, None)

  lemma TwoAndThreeDigits()
    ensures NatToString(60) == "60" && NatToString(300) == "300"
  {
    assert DigitChar(0) == '0' && DigitChar(6) == '6' && DigitChar(3) == '3';
    assert NatToString(6) == "6" && NatToString(3) == "3";
    assert NatToString(60) == NatToString(6) + [DigitChar(0)];
    assert NatToString(30) == NatToString(3) + [DigitChar(0)];
    assert NatToString(300) == NatToString(30) + [DigitChar(0)];
  }

  /** The directives come in the fixed order, each kind at most once. */
  lemma DirectivesOrdered(o: CacheOptions)
    ensures forall i, j | 0 <= i < j < |Directives(o)| :: Directives(o)[i].Rank() < Directives(o)[j].Rank()
  {
    var ds := Directives(o);
    assert forall i | 0 <= i < |ds| :: ds[i].Rank() >= i;
    assert forall i | 0 <= i < |ds| :: ds[i].Rank() <= 4 - (|ds| - 1 - i);
  }

  lemma NoCacheValue()
    ensures CacheControl(NoCache) == "no-store, no-cache, must-revalidate"
  {
  }

  lemma JoinThree(a: string, b: string, c: string)
    ensures Join([a, b, c], ", ") == a + ", " + b + ", " + c
  {
    assert [b, c][1..] == [c];
    assert Join([b, c], ", ") == b + ", " + c;
    assert [a, b, c][1..] == [b, c];
    assert Join([a, b, c], ", ") == a + ", " + (b + ", " + c);
  }

  lemma JoinFour(a: string, b: string, c: string, d: string)
    ensures Join([a, b, c, d], ", ") == a + ", " + b + ", " + c + ", " + d
  {
    assert [a, b, c, d][1..] == [b, c, d];
    JoinThree(b, c, d);
    assert Join([a, b, c, d], ", ") == a + ", " + (b + ", " + c + ", " + d);
  }

  lemma ShortLivedParts()
    ensures RenderAll(Directives(ShortLived)) == ["public", "max-age=60", "s-maxage=60", "stale-while-revalidate=300"]
  {
    TwoAndThreeDigits();
    var ds := Directives(ShortLived);
    assert ds == [Public, MaxAgeOf(60), SMaxAgeOf(60), StaleWhileRevalidateOf(300)];
    assert "max-age=" + "60" == "max-age=60";
    assert "s-maxage=" + "60" == "s-maxage=60";
    assert "stale-while-revalidate=" + "300" == "stale-while-revalidate=300";
  }

  /** The short-lived preset: public, one minute fresh, shared caches alike, five minutes stale. */
  lemma ShortLivedValue()
    ensures CacheControl(ShortLived) == "public" + ", " + "max-age=60" + ", " + "s-maxage=60" + ", " + "stale-while-revalidate=300"
  {
    ShortLivedParts();
    JoinFour("public", "max-age=60", "s-maxage=60", "stale-while-revalidate=300");
  }

  lemma UserDataParts()
    ensures RenderAll(Directives(UserData)) == ["private", "max-age=60", "must-revalidate"]
  {
    TwoAndThreeDigits();
    var ds := Directives(UserData);
    assert ds == [Private, MaxAgeOf(60), MustRevalidateFlag];
    assert "max-age=" + "60" == "max-age=60";
  }

  /** The per-user preset: private, one minute, revalidated; no shared-cache age. */
  lemma UserDataValue()
    ensures CacheControl(UserData) == "private" + ", " + "max-age=60" + ", " + "must-revalidate"
  {
    UserDataParts();
    JoinThree("private", "max-age=60", "must-revalidate");
  }

  /** Without options: just `public`. */
  lemma EmptyOptionsArePublic()
    ensures CacheControl(NoOptions) == "public"
  {
  }
}
