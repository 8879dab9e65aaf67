/** The stored form of an email address. */
module Emails {
  import opened Text

  const MAX_EMAIL_LENGTH: nat := 254

  function NormalizeEmail(email: string): string { Fold(Strip(email)) }

  /** Storing an already normalized address changes nothing, so every path that normalizes
      again agrees on one key. */
  lemma NormalizeIdempotent(email: string)
    ensures NormalizeEmail(NormalizeEmail(email)) == NormalizeEmail(email)
  {
    var key := NormalizeEmail(email);
    StripTrims(email);
    FoldIdempotent(Strip(email));
    FoldKeepsTrim(Strip(email), key);
    StripTrims(key);
  }

  /** What the stored form is: the typed address without the spaces around it and with its
      letters in lower case; so two addresses are one login exactly when they differ in no more. */
  lemma NormalizeMeans(a: string, b: string)
    ensures SameLetters(NormalizeEmail(a), Strip(a))
    ensures forall i :: 0 <= i < |NormalizeEmail(a)| ==> !('A' <= NormalizeEmail(a)[i] <= 'Z')
    ensures NormalizeEmail(a) == NormalizeEmail(b) <==> SameLetters(Strip(a), Strip(b))
  {
    FoldMeans(Strip(a), Strip(b));
    hide Strip;
  }
}
