/**
 * The osu! API access token (`AccessToken`, src/token.rs) and its time
 * arithmetic. The current time is a parameter `now`, in Unix seconds.
 */
module Token {
  import opened Wrappers
  import opened Json

  const I32_MIN: int := -0x8000_0000
  const I32_MAX: int := 0x7FFF_FFFF
  const I64_MIN: int := -0x8000_0000_0000_0000
  const I64_MAX: int := 0x7FFF_FFFF_FFFF_FFFF

  predicate IsI32(x: int) { I32_MIN <= x <= I32_MAX }
  predicate IsI64(x: int) { I64_MIN <= x <= I64_MAX }

  const FIELD_ACCESS_TOKEN: string := "access_token"
  const FIELD_EXPIRES_IN: string := "expires_in"
  const FIELD_REFRESH_TOKEN: string := "refresh_token"
  const FIELD_TOKEN_TYPE: string := "token_type"
  const FIELD_CTIME: string := "ctime"

  datatype AccessToken = AccessToken(
    accessToken: string,
    expiresIn: int,
    refreshToken: string,
    tokenType: string,
    ctime: int)
  {
    /** The Rust field widths: `expires_in: i32`, `ctime: i64`. */
    predicate InRange() { IsI32(expiresIn) && IsI64(ctime) }

    /** `obtained_at`: the issue instant, at which the whole `expires_in` (if positive) lies ahead. */
    function ObtainedAt(): (t: int)
      ensures Lifetime(t) == if expiresIn > 0 then expiresIn else 0
    {
      ctime
    }

    /** `expires_at`: `expires_in` seconds after issue; never before issue unless `expires_in` is negative. */
    function ExpiresAt(): (t: int)
      ensures t - ctime == expiresIn
      ensures ctime <= t <==> expiresIn >= 0
    {
      ctime + expiresIn
    }

    /** As written: true while the token is still valid (the comparison is inverted). */
    function Expired(now: int): (r: bool)
      ensures r <==> Lifetime(now) > 0 || now == ExpiresAt()
    {
      ExpiresAt() >= now
    }

    /** Seconds left before expiry, never negative. */
    function Lifetime(now: int): (r: int)
      ensures r >= 0
      ensures r == 0 <==> ExpiresAt() <= now
      ensures r > 0 ==> now + r == ExpiresAt()
    {
      var left := ctime + expiresIn - now;
      if 0 < left then left else 0
    }

    /** The evidently intended test: expired once the expiry instant is reached. */
    function IsExpired(now: int): (r: bool)
      ensures r <==> Lifetime(now) == 0
    {
      now >= ExpiresAt()
    }
  }

  /** At the moment it was obtained a token has its whole `expires_in` ahead of it. */
  lemma LifetimeAtIssue(t: AccessToken)
    ensures t.Lifetime(t.ObtainedAt()) == if t.expiresIn > 0 then t.expiresIn else 0
    ensures t.expiresIn >= 0 ==> t.ObtainedAt() <= t.ExpiresAt()
  {
  }

  /** `expired` disagrees with the intended test everywhere except at the expiry instant itself. */
  lemma ExpiredIsInverted(t: AccessToken, now: int)
    ensures t.Expired(now) <==> !t.IsExpired(now) || now == t.ExpiresAt()
    ensures now < t.ExpiresAt() ==> t.Expired(now) && t.Lifetime(now) > 0
    ensures now > t.ExpiresAt() ==> !t.Expired(now) && t.Lifetime(now) == 0
  {
  }

  /** A fresh one-hour token reads as `expired` at the moment it is issued. */
  lemma ExpiredCounterexample()
    ensures var t := AccessToken("access", 3600, "refresh", "Bearer", 0);
            t.Expired(0) && t.Lifetime(0) == 3600 && !t.IsExpired(0)
  {
  }

  function StrField(fields: map<string, Value>, name: string): (r: Option<string>)
    ensures r.Some? <==> name in fields && fields[name].JStr?
    ensures r.Some? ==> fields[name] == JStr(r.value)
  {
    if name in fields && fields[name].JStr? then Some(fields[name].s) else None
  }

  function I32Field(fields: map<string, Value>, name: string): (r: Option<int>)
    ensures r.Some? <==> name in fields && fields[name].JInt? && IsI32(fields[name].i)
    ensures r.Some? ==> fields[name] == JInt(r.value)
  {
    if name in fields && fields[name].JInt? && IsI32(fields[name].i) then Some(fields[name].i) else None
  }

  /**
   * `serde_json::from_value::<AccessToken>`: an object with the four required
   * fields at their types (other fields ignored); `ctime` defaults to `now` when
   * absent and must be an i64 when present.
   */
  function FromJson(v: Value, now: int): (r: Option<AccessToken>)
    ensures r.Some? ==> v.JObj? && IsI32(r.value.expiresIn)
    ensures r.Some? && FIELD_CTIME !in v.fields ==> r.value.ctime == now
    ensures r.Some? && FIELD_CTIME in v.fields ==> v.fields[FIELD_CTIME] == JInt(r.value.ctime) && IsI64(r.value.ctime)
    ensures r.Some? ==> StrField(v.fields, FIELD_ACCESS_TOKEN) == Some(r.value.accessToken)
    ensures r.Some? ==> I32Field(v.fields, FIELD_EXPIRES_IN) == Some(r.value.expiresIn)
    ensures r.Some? ==> StrField(v.fields, FIELD_REFRESH_TOKEN) == Some(r.value.refreshToken)
    ensures r.Some? ==> StrField(v.fields, FIELD_TOKEN_TYPE) == Some(r.value.tokenType)
    ensures (v.JObj? && StrField(v.fields, FIELD_ACCESS_TOKEN).Some?
             && I32Field(v.fields, FIELD_EXPIRES_IN).Some? && StrField(v.fields, FIELD_REFRESH_TOKEN).Some?
             && StrField(v.fields, FIELD_TOKEN_TYPE).Some?
             && (FIELD_CTIME in v.fields ==> v.fields[FIELD_CTIME].JInt? && IsI64(v.fields[FIELD_CTIME].i)))
            ==> r.Some?
  {
    match v
    case JObj(fields) =>
      var access := StrField(fields, FIELD_ACCESS_TOKEN);
      var expires := I32Field(fields, FIELD_EXPIRES_IN);
      var refresh := StrField(fields, FIELD_REFRESH_TOKEN);
      var kind := StrField(fields, FIELD_TOKEN_TYPE);
      var ctime: Option<int> :=
        if FIELD_CTIME !in fields then Some(now)
        else if fields[FIELD_CTIME].JInt? && IsI64(fields[FIELD_CTIME].i) then Some(fields[FIELD_CTIME].i)
        else None;
      if access.Some? && expires.Some? && refresh.Some? && kind.Some? && ctime.Some? then
        Some(AccessToken(access.value, expires.value, refresh.value, kind.value, ctime.value))
      else
        None
    case _ => None
  }

  /** `serde_json::to_value(token)`: every field, `ctime` included. */
  function ToJson(t: AccessToken): Value
  {
    JObj(map[
      FIELD_ACCESS_TOKEN := JStr(t.accessToken),
      FIELD_EXPIRES_IN := JInt(t.expiresIn),
      FIELD_REFRESH_TOKEN := JStr(t.refreshToken),
      FIELD_TOKEN_TYPE := JStr(t.tokenType),
      FIELD_CTIME := JInt(t.ctime)])
  }

  /** A stored token reads back as itself, whatever the current time. */
  lemma JsonRoundTrip(t: AccessToken, now: int)
    requires t.InRange()
    ensures FromJson(ToJson(t), now) == Some(t)
  {
  }

  /** `serde_json::from_str::<AccessToken>`: text to value, then value to token. */
  function ParseToken(codec: TextCodec, text: string, now: int): (r: Option<AccessToken>)
    ensures r.Some? ==> codec.parse(text).Some? && FromJson(codec.parse(text).value, now) == r
  {
    match codec.parse(text)
    case Some(v) => FromJson(v, now)
    case None => None
  }

  /** A token printed by a codec that keeps the serde_json law parses back to itself. */
  lemma TokenTextRoundTrip(codec: TextCodec, t: AccessToken, now: int)
    requires RoundTrips(codec) && t.InRange() && codec.render(ToJson(t)).Some?
    ensures ParseToken(codec, codec.render(ToJson(t)).value, now) == Some(t)
  {
    JsonRoundTrip(t, now);
  }

  /**
   * The upstream token response carries no `ctime`, so a renewed token is
   * stamped with the time it was parsed and has its full lifetime ahead of it.
   */
  lemma RenewedTokenStampedNow(codec: TextCodec, text: string, now: int)
    requires ParseToken(codec, text, now).Some?
    requires FIELD_CTIME !in codec.parse(text).value.fields
    ensures var t := ParseToken(codec, text, now).value;
            t.ctime == now && t.Lifetime(now) == (if t.expiresIn > 0 then t.expiresIn else 0)
  {
  }
}
