/** The password rule of `web/validation.py`. */
module WebValidation {
  import opened Strings

  /** `validate_password`: non-empty, and at least five characters once stripped. */
  function ValidatePassword(password: string): (r: bool)
    ensures r ==> |password| >= 5
  {
    password != "" && |Strip(password)| >= 5
  }

  /**
   * Surrounding whitespace does not count and interior whitespace does: a password padded
   * around a core (first and last characters not whitespace) is valid iff the core has at
   * least five characters.
   */
  lemma ValidatePasswordCountsCore(w1: string, core: string, w2: string)
    requires AllWhitespace(w1) && AllWhitespace(w2)
    requires |core| > 0 && !IsWhitespace(core[0]) && !IsWhitespace(core[|core| - 1])
    ensures ValidatePassword(w1 + core + w2) <==> |core| >= 5
  {
    StripPadding(w1, core, w2);
  }

  /** The empty password and any whitespace-only password are rejected. */
  lemma ValidatePasswordRejectsBlank(w: string)
    requires AllWhitespace(w)
    ensures !ValidatePassword(w)
  {
    StripAllWhitespace(w);
  }
}
