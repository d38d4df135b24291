/**
 * The WordPress helpers the plugin calls. Their code belongs to WordPress,
 * so each one is an uninterpreted function handed in as part of a `Host`.
 */
module WordPress {

  datatype Host = Host(
    /** `sanitize_text_field` */
    sanitizeTextField: string -> string,
    /** `sanitize_textarea_field` */
    sanitizeTextareaField: string -> string,
    /** `sanitize_email` */
    sanitizeEmail: string -> string,
    /** `esc_url_raw` */
    escUrlRaw: string -> string,
    /** `is_email` */
    isEmail: string -> bool)

  /**
   * `is_email` rejects the two strings PHP treats as falsy, "" and "0"; the
   * WordPress implementation refuses anything shorter than six characters.
   * Only the lemmas that rely on it assume it.
   */
  predicate RejectsTrivial(host: Host)
  {
    !host.isEmail("") && !host.isEmail("0")
  }
}
