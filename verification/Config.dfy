/** The constants of apps/api/src/modules/auth/config.ts, in milliseconds where they are durations. */
module Config {
  const ACCESS_TOKEN_EXPIRY_S := 30 * 60
  const REFRESH_TOKEN_EXPIRY_MS := 30 * 24 * 60 * 60 * 1000
  const REFRESH_COOLDOWN_MS := 5 * 60 * 1000
  const OTP_EXPIRY_MS := 5 * 60 * 1000
  const OTP_COOLDOWN_MS := 1 * 60 * 1000
  const OTP_MAX_ATTEMPTS := 3
}
