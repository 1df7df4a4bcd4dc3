/**
 * Process-wide configuration. The program reads these four settings from the
 * environment once at startup and never changes them; the model passes them
 * explicitly as an immutable value.
 */
module Settings {
  datatype Config = Config(
    verifyToken: string,    // WEBHOOK_VERIFY_TOKEN
    appSecret: string,      // FACEBOOK_APP_SECRET; empty disables signature checks
    accessToken: string,    // WHATSAPP_ACCESS_TOKEN
    phoneNumberId: string   // WHATSAPP_PHONE_NUMBER_ID
  )

  /** Both credentials an outbound send needs are present. */
  predicate CanSend(cfg: Config) {
    cfg.accessToken != "" && cfg.phoneNumberId != ""
  }
}
