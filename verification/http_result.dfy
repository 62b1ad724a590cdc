/**
 * The value types of the Spotify Web API client: HTTP outcomes and their
 * classification, the decoded device records, and the retry configuration.
 *
 * A response body is kept only as far as the client reads it: the ArduinoJson
 * decoder is replaced by a `Payload` that is either not a JSON document or a
 * document whose `devices` array and `access_token` field are already decoded.
 */
module SpotifyTypes {
  import opened Arduino

  /** An unsigned 32-bit value (`uint32_t`). */
  type uint32 = x: int | 0 <= x < 0x1_0000_0000

  const UINT32_MODULUS: int := 0x1_0000_0000

  /** `SpotifyDevice`: one entry of the `devices` array of the device list. */
  datatype DeviceRecord = DeviceRecord(id: string, name: string, kind: string,
                                       isActive: bool, isRestricted: bool)

  /** A record with every field empty, as a default-constructed `SpotifyDevice`. */
  const BLANK_DEVICE: DeviceRecord := DeviceRecord("", "", "", false, false)

  /** What the decoder makes of a response body. */
  datatype Payload =
    | NotJson
    | Json(devices: seq<DeviceRecord>, accessToken: string)

  /** `HttpResult`: a status code (negative for transport errors) and the body. */
  datatype HttpResult = HttpResult(httpCode: int, payload: Payload)
  {
    /** 2xx. */
    function IsSuccess(): (b: bool)
      ensures b <==> 200 <= httpCode < 300
      ensures b ==> !IsUnauthorized() && !IsNotFound() && !IsRateLimited() && !IsServerError()
    {
      httpCode >= 200 && httpCode < 300
    }

    predicate IsUnauthorized()
    {
      httpCode == 401
    }

    predicate IsNotFound()
    {
      httpCode == 404
    }

    predicate IsRateLimited()
    {
      httpCode == 429
    }

    predicate IsServerError()
    {
      httpCode >= 500 && httpCode < 600
    }

    /** Rate limiting, a server error, or the transport's connection failure (-1). */
    function ShouldRetry(): (b: bool)
      ensures b <==> httpCode == 429 || (500 <= httpCode < 600) || httpCode == -1
      ensures b ==> !IsSuccess()
      ensures IsUnauthorized() || IsNotFound() ==> !b
      ensures httpCode == 0 || httpCode < -1 ==> !b
    {
      IsRateLimited() || IsServerError() || httpCode == -1
    }

    /** The retry loop stops on this outcome: a success or an error retrying cannot fix. */
    predicate IsFinal()
    {
      IsSuccess() || !ShouldRetry()
    }
  }

  /**
   * `RetryConfig`.  The multiplier is a whole number here; the firmware's default
   * of 2.0 is one.
   */
  datatype RetryConfig = RetryConfig(maxRetries: byte, initialDelayMs: uint32,
                                     maxDelayMs: uint32, backoffMultiplier: nat)

  const SPOTIFY_MAX_RETRIES: byte := 3
  const SPOTIFY_INITIAL_RETRY_DELAY: uint32 := 1000
  const SPOTIFY_MAX_RETRY_DELAY: uint32 := 10000
  const SPOTIFY_BACKOFF_MULTIPLIER: nat := 2

  /** The configuration a client starts with. */
  function DefaultRetryConfig(): (c: RetryConfig)
    ensures c.maxRetries == 3 && c.initialDelayMs == 1000
    ensures c.maxDelayMs == 10000 && c.backoffMultiplier == 2
    ensures c.initialDelayMs <= c.maxDelayMs
  {
    RetryConfig(SPOTIFY_MAX_RETRIES, SPOTIFY_INITIAL_RETRY_DELAY,
                SPOTIFY_MAX_RETRY_DELAY, SPOTIFY_BACKOFF_MULTIPLIER)
  }
}
