/** The URL given to the create-link command.

    The link button asks the user for a URL.  When the reply contains
    "http" in any letter case it is used as it is; otherwise "http://" is
    put in front of it.  A cancelled prompt yields no string at all, which
    the page turns into the four letters "null" both when testing and when
    concatenating, so the link becomes "http://null".
 */
module Link {

  /** What the URL prompt returns. */
  datatype PromptReply = Cancelled | Entered(text: string)

  const Scheme: string := "http://"

  /** The reply as the page's string conversion sees it: the typed text,
      or "null" for a cancelled prompt, which never passes the test. */
  function ReplyText(reply: PromptReply): (r: string)
    ensures reply.Entered? ==> r == reply.text
    ensures reply.Cancelled? ==> r == "null" && !ContainsHttp(r)
  {
    match reply
    case Cancelled => "null"
    case Entered(text) => text
  }

  /** c is the letter `lower` or its upper-case form.  A case-insensitive
      regular expression without the unicode flag folds only ASCII letters
      onto "h", "t" and "p", so this is the whole of the match. */
  predicate SameLetter(c: char, lower: char) {
    c == lower || c as int == lower as int - 32
  }

  /** s holds "http", in any letter case, starting at position k. */
  predicate HttpAt(s: string, k: nat)
    requires k + 4 <= |s|
  {
    SameLetter(s[k], 'h') && SameLetter(s[k + 1], 't')
    && SameLetter(s[k + 2], 't') && SameLetter(s[k + 3], 'p')
  }

  /** The test /http/i, scanning s from the left. */
  function ContainsHttp(s: string): bool
    decreases |s|
  {
    |s| >= 4 && (HttpAt(s, 0) || ContainsHttp(s[1..]))
  }

  /** The scan holds exactly when "http" occurs somewhere in s, in any
      letter case. */
  lemma {:induction false} ContainsHttpMatches(s: string)
    ensures ContainsHttp(s) <==> exists k: nat :: k + 4 <= |s| && HttpAt(s, k)
    decreases |s|
  {
    if |s| >= 4 {
      HttpAtShift(s);
      ContainsHttpMatches(s[1..]);
    }
  }

  /** s holds "http" somewhere exactly when it starts with it or its tail
      holds it somewhere. */
  lemma HttpAtShift(s: string)
    requires |s| >= 4
    ensures (exists k: nat :: k + 4 <= |s| && HttpAt(s, k))
            <==> HttpAt(s, 0) || exists k: nat :: k + 4 <= |s[1..]| && HttpAt(s[1..], k)
  {
    var t := s[1..];
    if k: nat :| k + 4 <= |s| && HttpAt(s, k) {
      if k > 0 {
        assert HttpAt(t, k - 1);
      }
    }
    if k: nat :| k + 4 <= |t| && HttpAt(t, k) {
      assert HttpAt(s, k + 1);
    }
  }

  /** The link that the create-link command receives: it always passes the
      test, it is the reply itself exactly when the reply passes the test,
      and otherwise it is the scheme followed by the reply. */
  function NormalizeLink(reply: PromptReply): (r: string)
    ensures ContainsHttp(r)
    ensures r == ReplyText(reply) <==> ContainsHttp(ReplyText(reply))
    ensures !ContainsHttp(ReplyText(reply)) ==> r == Scheme + ReplyText(reply)
  {
    var link := ReplyText(reply);
    if ContainsHttp(link) then link
    else
      assert HttpAt(Scheme + link, 0);
      Scheme + link
  }

  /** A reply that contains "http" in any case is used unchanged. */
  lemma NormalizeKeepsHttpReply(text: string)
    requires ContainsHttp(text)
    ensures NormalizeLink(Entered(text)) == text
  {
  }

  /** Any other reply gets the scheme in front of it. */
  lemma NormalizePrefixesOtherReply(text: string)
    requires !ContainsHttp(text)
    ensures NormalizeLink(Entered(text)) == Scheme + text
  {
  }

  /** A cancelled prompt becomes "http://null". */
  lemma NormalizeCancelled()
    ensures NormalizeLink(Cancelled) == "http://null"
  {
  }

  /** The link dispatched ends with what the user typed (with "null" for a
      cancelled prompt). */
  lemma NormalizeEndsWithReply(reply: PromptReply)
    ensures |ReplyText(reply)| <= |NormalizeLink(reply)|
    ensures NormalizeLink(reply)[|NormalizeLink(reply)| - |ReplyText(reply)|..] == ReplyText(reply)
  {
  }

  /** Normalising an already dispatched link changes nothing. */
  lemma NormalizeIdempotent(reply: PromptReply)
    ensures NormalizeLink(Entered(NormalizeLink(reply))) == NormalizeLink(reply)
  {
  }

  /** A bare host name gets the scheme. */
  lemma NormalizeBareHost()
    ensures NormalizeLink(Entered("example.com")) == "http://example.com"
  {
    BareHostHasNoHttp();
    assert NormalizeLink(Entered("example.com")) == Scheme + "example.com";
  }

  /** "example.com" does not pass the test. */
  lemma BareHostHasNoHttp()
    ensures !ContainsHttp("example.com")
  {
  }

  /** A URL that starts with "http" or "HTTPS" is kept. */
  lemma NormalizeHttpUrls()
    ensures NormalizeLink(Entered("http://example.com")) == "http://example.com"
    ensures NormalizeLink(Entered("HTTPS://x.com")) == "HTTPS://x.com"
  {
    assert HttpAt("http://example.com", 0);
    assert HttpAt("HTTPS://x.com", 0);
  }

  /** Three sample replies: a bare host name, an http URL, and an
      upper-case HTTPS URL. */
  lemma NormalizeExamples()
    ensures NormalizeLink(Entered("example.com")) == "http://example.com"
    ensures NormalizeLink(Entered("http://example.com")) == "http://example.com"
    ensures NormalizeLink(Entered("HTTPS://x.com")) == "HTTPS://x.com"
  {
    NormalizeBareHost();
    NormalizeHttpUrls();
  }
}
