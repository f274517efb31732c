/**
  From an access decision to the bytes a listener gets: the decision, the signed token, the verified claims, the
  byte limit and the clamped range, end to end.
 */
module StreamAccess {
  import opened Results
  import opened GoInt
  import opened GoText
  import opened ByteRange
  import opened Base64Url

  // ---------- the decision ----------

  datatype Level = Full | Preview | Denied
  datatype Decision = Decision(level: Level, maxSeconds: int64, reason: string)

  datatype Edition = Edition(status: string, price: int, previewSeconds: int64)

  /** What the kids policy and the entitlement check answered, when they were asked. */
  datatype KidsVerdict = NoChild | KidsAllowed | KidsBlocked(reason: string) | KidsFailed
  datatype OwnershipVerdict = Anonymous | Owned | NotOwned | CheckFailed

  datatype MediaError = NotFound | Forbidden | InvalidToken | OutsidePreview | PolicyError | EntitlementError

  /** ResolveAccess: kids policy first and only to restrict, entitlement second, preview as the fallback. */
  function ResolveAccess(edition: Option<Edition>, kids: KidsVerdict,
                         ownership: OwnershipVerdict): Result<Decision, MediaError>
  {
    if edition.None? then Err(NotFound) else
      var e := edition.value;
      if e.status != "" && e.status != "published" then Ok(Decision(Denied, 0, "edition_unpublished"))
      else if kids.KidsFailed? then Err(PolicyError)
      else if kids.KidsBlocked? then Ok(Decision(Denied, 0, kids.reason))
      else if e.price == 0 then Ok(Decision(Full, 0, "free"))
      else if ownership.CheckFailed? then Err(EntitlementError)
      else if ownership.Owned? then Ok(Decision(Full, 0, "entitled"))
      else if e.previewSeconds <= 0 then Ok(Decision(Denied, 0, "no_preview"))
      else Ok(Decision(Preview, e.previewSeconds, "preview_only"))
  }

  predicate Playable(d: Decision) {
    d.level.Full? || (d.level.Preview? && d.maxSeconds > 0)
  }

  /** A child the policy blocks hears nothing, not even a free title; nobody hears all of a paid title they do not
      own; and a preview is never longer than the edition's. */
  lemma DecisionRestricts(edition: Option<Edition>, kids: KidsVerdict, ownership: OwnershipVerdict)
    requires ResolveAccess(edition, kids, ownership).Ok? && Playable(ResolveAccess(edition, kids, ownership).value)
    ensures var d := ResolveAccess(edition, kids, ownership).value;
            && edition.Some? && (edition.value.status == "" || edition.value.status == "published")
            && (kids.NoChild? || kids.KidsAllowed?)
            && (d.level.Full? <==> edition.value.price == 0 || ownership.Owned?)
            && (d.level.Preview? ==> d.maxSeconds == edition.value.previewSeconds > 0)
  {}

  /** Published, or of no status at all, and not kept from the child who listens. */
  predicate MayBeHeard(edition: Edition, kids: KidsVerdict) {
    (edition.status == "" || edition.status == "published") && (kids.NoChild? || kids.KidsAllowed?)
  }

  /** Full access is decided exactly for what is free or owned, a preview of the edition's own length exactly for the
      rest that has one, and everything else is refused. A check that failed decides nothing. */
  lemma DecisionMeans(edition: Edition, kids: KidsVerdict, ownership: OwnershipVerdict)
    ensures var r, paid := ResolveAccess(Some(edition), kids, ownership), edition.price != 0 && !ownership.Owned?;
            && ((r.Ok? && r.value.level.Full?) <==> MayBeHeard(edition, kids) && !paid)
            && ((r.Ok? && r.value.level.Preview?) <==>
                  MayBeHeard(edition, kids) && paid && !ownership.CheckFailed? && edition.previewSeconds > 0)
            && (r.Ok? && r.value.level.Preview? ==> r.value.maxSeconds == edition.previewSeconds)
            && (r.Err? <==>
                  && (edition.status == "" || edition.status == "published")
                  && (kids.KidsFailed? || (!kids.KidsBlocked? && edition.price != 0 && ownership.CheckFailed?)))
    ensures ResolveAccess(None, kids, ownership) == Err(NotFound)
    ensures var r := ResolveAccess(Some(edition), kids, ownership);
            r.Ok? && r.value.level.Denied? ==>
              r.value.reason ==
              (if edition.status != "" && edition.status != "published" then "edition_unpublished"
               else if kids.KidsBlocked? then kids.reason else "no_preview")
  {}

  // ---------- the token ----------

  /** A Go string of bytes, one character for each. */
  predicate IsByteString(s: string) {
    forall i :: 0 <= i < |s| ==> s[i] as int < 256
  }

  function ToBytes(s: string): seq<byte>
    requires IsByteString(s)
  {
    seq(|s|, i requires 0 <= i < |s| => s[i] as int)
  }

  function FromBytes(bs: seq<byte>): string {
    seq(|bs|, i requires 0 <= i < |bs| => bs[i] as char)
  }

  datatype Claims = Claims(asset: string, expires: int64, maxSeconds: int64)

  const NANOS := 1_000_000_000

  lemma DecimalIsBytes(x: int)
    ensures IsByteString(FormatInt(x))
  {
    var d := Decimal(if x < 0 then -x else x);
    assert forall i :: 0 <= i < |d| ==> IsDigit(d[i]);
  }

  function Payload(asset: string, expires: int64, maxSeconds: int64): (p: string)
    ensures IsByteString(asset) ==> IsByteString(p)
  {
    DecimalIsBytes(expires);
    DecimalIsBytes(maxSeconds);
    asset + "|" + FormatInt(expires) + "|" + FormatInt(maxSeconds)
  }

  /** Signer.Sign. `mac` is the keyed hash of the signer; nothing is assumed about it. */
  function Sign(mac: string -> string, asset: string, expires: int64, maxSeconds: int64): string
    requires IsByteString(asset)
  {
    var encoded := EncodeToString(ToBytes(Payload(asset, expires, maxSeconds)));
    encoded + "." + mac(encoded)
  }

  /** Signer.Verify at the instant `now`, in nanoseconds. */
  function Verify(mac: string -> string, token: string, now: int): Option<Claims> {
    match Cut(token, '.')
    case None => None
    case Some((encoded, signature)) =>
      if signature != mac(encoded) then None
      else match DecodeString(encoded)
        case None => None
        case Some(raw) =>
          var parts := Split(FromBytes(raw), '|');
          if |parts| != 3 || ParseInt(parts[1]).None? then None
          else if now > ParseInt(parts[1]).value * NANOS then None
          else if ParseInt(parts[2]).None? then None
          else Some(Claims(parts[0], ParseInt(parts[1]).value, ParseInt(parts[2]).value))
  }

  lemma BytesRoundTrip(s: string)
    requires IsByteString(s)
    ensures FromBytes(ToBytes(s)) == s
  {}

  /** The part of a payload after the asset id. */
  function Tail(expires: int64, maxSeconds: int64): string {
    FormatInt(expires) + ['|'] + FormatInt(maxSeconds)
  }

  lemma NoBarInNumber(x: int)
    ensures '|' !in FormatInt(x)
  {
    FormatHolds(if x < 0 then -x else x, '|');
    if x < 0 {
      assert FormatInt(x) == "-" + Decimal(-x) && FormatInt(-x) == Decimal(-x);
    }
  }

  lemma TailSplits(expires: int64, maxSeconds: int64)
    ensures Split(Tail(expires, maxSeconds), '|') == [FormatInt(expires), FormatInt(maxSeconds)]
  {
    NoBarInNumber(expires);
    NoBarInNumber(maxSeconds);
    SplitJoined(FormatInt(expires), '|', FormatInt(maxSeconds));
    SplitSingle(FormatInt(maxSeconds), '|');
  }

  lemma ExtraBarsSplit(asset: string, tail: string)
    requires '|' in asset
    ensures |Split(asset + ['|'] + tail, '|')| > |Split(tail, '|')| + 1
  {
    SplitCount(asset + ['|'] + tail, '|');
    SplitCount(tail, '|');
    CountJoined(asset, ['|'] + tail, '|');
    assert asset + (['|'] + tail) == asset + ['|'] + tail;
    assert (['|'] + tail)[1..] == tail;
    CountAbsent(asset, '|');
  }

  /** A payload splits into its three parts exactly when the asset id holds no separator. */
  lemma PayloadSplits(asset: string, expires: int64, maxSeconds: int64)
    ensures |Split(Payload(asset, expires, maxSeconds), '|')| == 3 <==> '|' !in asset
    ensures '|' !in asset ==>
              Split(Payload(asset, expires, maxSeconds), '|') == [asset, FormatInt(expires), FormatInt(maxSeconds)]
  {
    var tail := Tail(expires, maxSeconds);
    TailSplits(expires, maxSeconds);
    assert Payload(asset, expires, maxSeconds) == asset + ['|'] + tail;
    if '|' in asset {
      ExtraBarsSplit(asset, tail);
    } else {
      SplitJoined(asset, '|', tail);
    }
  }

  /** Cutting a minted token gives back the encoded payload and its signature. */
  lemma TokenCuts(mac: string -> string, asset: string, expires: int64, maxSeconds: int64)
    requires IsByteString(asset)
    ensures var encoded := EncodeToString(ToBytes(Payload(asset, expires, maxSeconds)));
            Cut(Sign(mac, asset, expires, maxSeconds), '.') == Some((encoded, mac(encoded)))
  {
    var bs := ToBytes(Payload(asset, expires, maxSeconds));
    EncodedInAlphabet(bs);
    AlphabetExcludes(EncodeToString(bs), '.');
    CutJoined(EncodeToString(bs), '.', mac(EncodeToString(bs)));
  }

  /** A minted token verifies to exactly what was signed, unless it has expired or the asset id holds the separator,
      and then it never verifies at all. */
  lemma SignVerify(mac: string -> string, asset: string, expires: int64, maxSeconds: int64, now: int)
    requires IsByteString(asset)
    ensures Verify(mac, Sign(mac, asset, expires, maxSeconds), now) ==
            (if '|' in asset || now > expires * 1_000_000_000 then None else Some(Claims(asset, expires, maxSeconds)))
  {
    var payload := Payload(asset, expires, maxSeconds);
    TokenCuts(mac, asset, expires, maxSeconds);
    RoundTrip(ToBytes(payload));
    BytesRoundTrip(payload);
    PayloadSplits(asset, expires, maxSeconds);
    ParseUndoesFormat(expires);
    ParseUndoesFormat(maxSeconds);
  }

  /** A token is accepted only with the signature of its own first part, and only until it expires. */
  lemma VerifiedIsSigned(mac: string -> string, token: string, now: int)
    requires Verify(mac, token, now).Some?
    ensures now <= Verify(mac, token, now).value.expires * 1_000_000_000
    ensures exists encoded :: token == encoded + ['.'] + mac(encoded)
  {
    CutMeans(token, '.');
    var encoded := Cut(token, '.').value.0;
    assert token == encoded + ['.'] + mac(encoded);
  }

  // ---------- the bytes ----------

  const HEADROOM := 65_536

  /** PreviewByteLimit in Go's 64-bit arithmetic. */
  function PreviewByteLimit(maxSeconds: int64, bitrateKbps: int64): int64 {
    if maxSeconds <= 0 then 0 else
      var rate: int64 := if bitrateKbps <= 0 then 48 else bitrateKbps;
      Wrap64(Quo(Wrap64(Wrap64(maxSeconds * rate) * 1000), 8) + HEADROOM)
  }

  lemma Positive(a: int, b: int)
    requires a > 0 && b > 0
    ensures a * b > 0
  {}

  /** Below the overflow bound the limit is 125 bytes per second for each kilobit of bitrate, plus the headroom. */
  lemma LimitIsLinear(maxSeconds: int64, bitrateKbps: int64)
    requires maxSeconds > 0
    requires var rate := if bitrateKbps <= 0 then 48 else bitrateKbps; maxSeconds * rate * 1000 <= MAX_INT64 - 65_536
    ensures var rate := if bitrateKbps <= 0 then 48 else bitrateKbps;
            PreviewByteLimit(maxSeconds, bitrateKbps) == maxSeconds * rate * 125 + 65_536
  {
    var rate: int64 := if bitrateKbps <= 0 then 48 else bitrateKbps;
    var product := maxSeconds * rate;
    Positive(maxSeconds, rate);
    assert Wrap64(product) == product;
    assert Wrap64(product * 1000) == product * 1000;
    assert Quo(product * 1000, 8) == product * 125;
  }

  datatype Asset = Asset(storageKey: string, bitrateKbps: int64)
  /** What object storage is asked for: a key and a Range header, "" for the whole object. */
  datatype Read = Read(key: string, range: string)

  /** OpenAsset. */
  function OpenAsset(mac: string -> string, assets: map<string, Asset>, token: string, header: string,
                     now: int): Result<Read, MediaError>
  {
    match Verify(mac, token, now)
    case None => Err(InvalidToken)
    case Some(claims) =>
      if claims.asset !in assets then Err(NotFound) else
        var asset := assets[claims.asset];
        if claims.maxSeconds > 0 then
          match ClampRange(header, PreviewByteLimit(claims.maxSeconds, asset.bitrateKbps))
          case None => Err(OutsidePreview)
          case Some(range) => Ok(Read(asset.storageKey, range))
        else Ok(Read(asset.storageKey, header))
  }

  /** Why a read is refused: the token does not verify, its asset is gone, or the token is for a preview and the header
      does not ask for one range that starts inside its window. */
  lemma ReadRefused(mac: string -> string, assets: map<string, Asset>, token: string, header: string, now: int)
    ensures var r := OpenAsset(mac, assets, token, header, now);
            match Verify(mac, token, now)
            case None => r == Err(InvalidToken)
            case Some(claims) =>
              if claims.asset !in assets then r == Err(NotFound)
              else
                var limit := PreviewByteLimit(claims.maxSeconds, assets[claims.asset].bitrateKbps);
                && (r.Ok? <==>
                      claims.maxSeconds <= 0
                      || (limit > 0 && Requested(header).Some? && Requested(header).value.first < limit))
                && (r.Err? ==> r.error == OutsidePreview)
                && (r.Ok? ==> r.value.key == assets[claims.asset].storageKey)
  {
    if Verify(mac, token, now).Some? {
      var claims := Verify(mac, token, now).value;
      if claims.asset in assets {
        ClampMeans(header, PreviewByteLimit(claims.maxSeconds, assets[claims.asset].bitrateKbps));
      }
    }
  }

  /** The token PlaybackURL puts in the URL: none for a decision that is not playable. */
  function MintToken(mac: string -> string, d: Decision, asset: string, expires: int64): Result<string, MediaError>
    requires IsByteString(asset)
  {
    if !Playable(d) then Err(Forbidden)
    else Ok(Sign(mac, asset, expires, if d.level.Preview? then d.maxSeconds else 0))
  }

  ghost predicate AsksWithin(header: string, limit: int) {
    Requested(header).Some? && forall b: nat :: Covers(Requested(header).value, b) ==> b < limit
  }

  /** Whatever Range header is sent with a token minted from a preview decision, storage is asked only for bytes
      inside the preview window. */
  lemma PreviewContained(mac: string -> string, assets: map<string, Asset>, d: Decision, asset: string, expires: int64,
                         header: string, now: int)
    requires IsByteString(asset) && d.level.Preview? && MintToken(mac, d, asset, expires).Ok?
    requires OpenAsset(mac, assets, MintToken(mac, d, asset, expires).value, header, now).Ok?
    ensures asset in assets
    ensures var read := OpenAsset(mac, assets, MintToken(mac, d, asset, expires).value, header, now).value;
            && read.key == assets[asset].storageKey
            && AsksWithin(read.range, PreviewByteLimit(d.maxSeconds, assets[asset].bitrateKbps))
            && Requested(header).Some?
            && forall b: nat :: Covers(Requested(read.range).value, b) <==>
                                && Covers(Requested(header).value, b)
                                && b < PreviewByteLimit(d.maxSeconds, assets[asset].bitrateKbps)
  {
    SignVerify(mac, asset, expires, d.maxSeconds, now);
    var limit := PreviewByteLimit(d.maxSeconds, assets[asset].bitrateKbps);
    forall b: nat
      ensures Requested(header).Some? && Requested(ClampRange(header, limit).value).Some?
      ensures Covers(Requested(ClampRange(header, limit).value).value, b) <==>
                Covers(Requested(header).value, b) && b < limit
    {
      ClampIntersects(header, limit, b);
    }
    ClampIntersects(header, limit, 0);
  }

  /** The request makes storage read byte `b`. */
  predicate Fetches(mac: string -> string, assets: map<string, Asset>, token: string, request: (string, int), b: nat) {
    var result := OpenAsset(mac, assets, token, request.0, request.1);
    result.Ok? && (Requested(result.value.range).Some? ==> Covers(Requested(result.value.range).value, b))
  }

  lemma PreviewFetch(mac: string -> string, assets: map<string, Asset>, d: Decision, asset: string, expires: int64,
                     request: (string, int), b: nat)
    requires IsByteString(asset) && d.level.Preview? && MintToken(mac, d, asset, expires).Ok?
    requires Fetches(mac, assets, MintToken(mac, d, asset, expires).value, request, b)
    ensures asset in assets && b < PreviewByteLimit(d.maxSeconds, assets[asset].bitrateKbps)
  {
    PreviewContained(mac, assets, d, asset, expires, request.0, request.1);
  }

  /** Any number of requests with one preview token, at any times, together never leave the window. */
  lemma PreviewUnionContained(mac: string -> string, assets: map<string, Asset>, d: Decision, asset: string,
                              expires: int64, requests: seq<(string, int)>, b: nat)
    requires IsByteString(asset) && d.level.Preview? && MintToken(mac, d, asset, expires).Ok?
    requires exists i :: 0 <= i < |requests|
                         && Fetches(mac, assets, MintToken(mac, d, asset, expires).value, requests[i], b)
    ensures asset in assets && b < PreviewByteLimit(d.maxSeconds, assets[asset].bitrateKbps)
  {
    var token := MintToken(mac, d, asset, expires).value;
    var i :| 0 <= i < |requests| && Fetches(mac, assets, token, requests[i], b);
    PreviewFetch(mac, assets, d, asset, expires, requests[i], b);
  }

  /** OpenAsset hands this header to storage as it came. */
  predicate PassesOn(mac: string -> string, assets: map<string, Asset>, token: string, asset: string, header: string,
                     now: int)
  {
    asset in assets && OpenAsset(mac, assets, token, header, now) == Ok(Read(assets[asset].storageKey, header))
  }

  /** A minted token that verifies opens its asset without a limit, every header handed on as it came and no header at
      all included, exactly when it was minted from a full-access decision: a zero in the token means full, and a
      preview of zero seconds is never minted. */
  lemma UnlimitedMeansFull(mac: string -> string, assets: map<string, Asset>, d: Decision, asset: string,
                           expires: int64, now: int)
    requires IsByteString(asset) && asset in assets && MintToken(mac, d, asset, expires).Ok?
    requires Verify(mac, MintToken(mac, d, asset, expires).value, now).Some?
    ensures (forall header :: PassesOn(mac, assets, MintToken(mac, d, asset, expires).value, asset, header, now)) <==>
              d.level.Full?
    ensures PassesOn(mac, assets, MintToken(mac, d, asset, expires).value, asset, "", now) <==> d.level.Full?
  {
    var token := MintToken(mac, d, asset, expires).value;
    SignVerify(mac, asset, expires, if d.level.Preview? then d.maxSeconds else 0, now);
    if d.level.Full? {
      forall header ensures PassesOn(mac, assets, token, asset, header, now) {}
    } else {
      assert !PassesOn(mac, assets, token, asset, "", now);
    }
  }

  /** Who gets a token: exactly those who may hear the edition, in full or for its preview. */
  lemma MintedExactly(mac: string -> string, edition: Edition, kids: KidsVerdict, ownership: OwnershipVerdict,
                      asset: string, expires: int64)
    requires IsByteString(asset)
    ensures var r := ResolveAccess(Some(edition), kids, ownership);
            (r.Ok? && MintToken(mac, r.value, asset, expires).Ok?) <==>
              && MayBeHeard(edition, kids)
              && (edition.price == 0 || ownership.Owned? || (!ownership.CheckFailed? && edition.previewSeconds > 0))
  {
    DecisionMeans(edition, kids, ownership);
  }

  /** From the edition to the bytes: whoever may hear a free or an owned edition gets a token with which every request
      for the asset, until the token expires, is passed on to storage as it came. */
  lemma OwnerHearsEverything(mac: string -> string, assets: map<string, Asset>, edition: Edition, kids: KidsVerdict,
                             ownership: OwnershipVerdict, asset: string, expires: int64, header: string, now: int)
    requires IsByteString(asset) && '|' !in asset && asset in assets && now <= expires * 1_000_000_000
    requires MayBeHeard(edition, kids) && (edition.price == 0 || ownership.Owned?)
    ensures var r := ResolveAccess(Some(edition), kids, ownership);
            && r.Ok? && MintToken(mac, r.value, asset, expires).Ok?
            && PassesOn(mac, assets, MintToken(mac, r.value, asset, expires).value, asset, header, now)
  {
    SignVerify(mac, asset, expires, 0, now);
  }

  /** And whoever may hear only the preview of an edition gets a token with which a request is served exactly when its
      header asks for one well-formed range that starts inside the preview window. */
  lemma PreviewIsServed(mac: string -> string, assets: map<string, Asset>, edition: Edition, kids: KidsVerdict,
                        ownership: OwnershipVerdict, asset: string, expires: int64, header: string, now: int)
    requires IsByteString(asset) && '|' !in asset && asset in assets && now <= expires * 1_000_000_000
    requires MayBeHeard(edition, kids) && edition.price != 0 && edition.previewSeconds > 0
    requires ownership.NotOwned? || ownership.Anonymous?
    ensures var r := ResolveAccess(Some(edition), kids, ownership);
            && r.Ok? && MintToken(mac, r.value, asset, expires).Ok?
            && var read := OpenAsset(mac, assets, MintToken(mac, r.value, asset, expires).value, header, now);
            && var limit := PreviewByteLimit(edition.previewSeconds, assets[asset].bitrateKbps);
            && (read.Ok? <==> limit > 0 && Requested(header).Some? && Requested(header).value.first < limit)
            && (read.Err? ==> read.error == OutsidePreview)
  {
    SignVerify(mac, asset, expires, edition.previewSeconds, now);
    ClampMeans(header, PreviewByteLimit(edition.previewSeconds, assets[asset].bitrateKbps));
  }

  /** From the edition to the bytes: a listener who does not own a paid edition is never served a byte past the
      window of that edition's own preview length. */
  lemma NotOwnedHearsPreviewOnly(mac: string -> string, assets: map<string, Asset>, edition: Edition, kids: KidsVerdict,
                                 ownership: OwnershipVerdict, asset: string, expires: int64, request: (string, int),
                                 b: nat)
    requires IsByteString(asset) && edition.price != 0 && !ownership.Owned?
    requires ResolveAccess(Some(edition), kids, ownership).Ok?
    requires var d := ResolveAccess(Some(edition), kids, ownership).value;
             && MintToken(mac, d, asset, expires).Ok?
             && Fetches(mac, assets, MintToken(mac, d, asset, expires).value, request, b)
    ensures asset in assets && b < PreviewByteLimit(edition.previewSeconds, assets[asset].bitrateKbps)
  {
    var d := ResolveAccess(Some(edition), kids, ownership).value;
    DecisionRestricts(Some(edition), kids, ownership);
    PreviewFetch(mac, assets, d, asset, expires, request, b);
  }
}
