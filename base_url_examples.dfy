/** Worked examples of `normalizeBaseUrl` (src/api/client.js), including the inputs on which
    normalizing twice differs from normalizing once. */
module BaseUrlExamples {
  import opened Strings
  import opened Client

  /** `/` becomes `http:`, and `http://` loses its slashes the same way. */
  lemma SlashesStripped()
    ensures StripTrailing("http:///", '/') == "http:"
    ensures StripTrailing("http://", '/') == "http:"
  {
    SchemeSlashesStripped();
    var s := "http:///";
    assert s[..7] == "http://";
    StripDrop(s, '/');
  }

  lemma SchemeSlashesStripped()
    ensures StripTrailing("http://", '/') == "http:"
  {
    var s := "http://";
    assert s[..6] == "http:/";
    StripDrop(s, '/');
    var t := "http:/";
    assert t[..5] == "http:";
    StripOne(t, '/');
  }

  /** Normalizing `value` when its trimmed form `t` is known. */
  lemma NormalizeVia(value: string, t: string, r: string)
    requires Trim(value) == t && t != []
    requires HasScheme(t) ==> StripTrailing(t, '/') == r
    requires !HasScheme(t) ==> StripTrailing("http://" + t, '/') == r
    ensures NormalizeBaseUrl(value) == r
  {
  }

  lemma NormalizeSlash()
    ensures NormalizeBaseUrl("/") == "http:"
  {
    SlashFacts();
    NormalizeVia("/", "/", "http:");
  }

  lemma SlashFacts()
    ensures Trim("/") == "/" && !HasScheme("/") && StripTrailing("http://" + "/", '/') == "http:"
  {
    SlashesStripped();
    SlashTrimmed();
    SlashPrefixed();
  }

  lemma SlashTrimmed()
    ensures Trim("/") == "/"
  {
    TrimStartKeeps("/");
    TrimEndKeeps("/");
  }

  lemma SlashPrefixed()
    ensures "http://" + "/" == "http:///"
  {
  }

  lemma NormalizeSchemeOnly()
    ensures NormalizeBaseUrl("http://") == "http:"
  {
    SchemeOnlyFacts();
    NormalizeVia("http://", "http://", "http:");
  }

  lemma SchemeOnlyFacts()
    ensures Trim("http://") == "http://" && HasScheme("http://") && StripTrailing("http://", '/') == "http:"
  {
    SlashesStripped();
    TrimStartKeeps("http://");
    TrimEndKeeps("http://");
  }


  lemma NormalizeColon()
    ensures NormalizeBaseUrl("http:") == "http://http:"
  {
    ColonFacts();
    NormalizeVia("http:", "http:", "http://http:");
  }

  lemma ColonFacts()
    ensures Trim("http:") == "http:" && !HasScheme("http:")
    ensures StripTrailing("http://" + "http:", '/') == "http://http:"
  {
    TrimStartKeeps("http:");
    TrimEndKeeps("http:");
    assert "http://" + "http:" == "http://http:";
    assert !EndsWith("http://http:", '/');
  }


  /** Normalization is not idempotent in general: `/` becomes `http:`, which then gets a
      second scheme, and `http://` loses its slashes the same way. */
  lemma NormalizeNotIdempotent()
    ensures NormalizeBaseUrl(NormalizeBaseUrl("/")) != NormalizeBaseUrl("/")
    ensures NormalizeBaseUrl(NormalizeBaseUrl("http://")) != NormalizeBaseUrl("http://")
  {
    NormalizeSlash();
    NormalizeSchemeOnly();
    NormalizeColon();
  }

  lemma NormalizeSpaceSlash()
    ensures NormalizeBaseUrl("abc /") == "http://abc "
  {
    SpaceSlashFacts();
    NormalizeVia("abc /", "abc /", "http://abc ");
  }

  lemma SpaceSlashFacts()
    ensures Trim("abc /") == "abc /" && !HasScheme("abc /")
    ensures StripTrailing("http://" + "abc /", '/') == "http://abc "
  {
    TrimSpaceSlash();
    SpaceSlashPrefixed();
    SpaceSlashStripped();
  }

  lemma SpaceSlashPrefixed()
    ensures "http://" + "abc /" == "http://abc /"
  {
  }

  lemma SpaceSlashStripped()
    ensures StripTrailing("http://abc /", '/') == "http://abc "
  {
    var s := "http://abc /";
    assert s[..11] == "http://abc ";
    StripOne(s, '/');
  }

  lemma TrimSpaceSlash()
    ensures Trim("abc /") == "abc /"
  {
    TrimStartKeeps("abc /");
    TrimEndKeeps("abc /");
  }

  lemma NormalizeTrailingSpace()
    ensures NormalizeBaseUrl("http://abc ") == "http://abc"
  {
    TrailingSpaceFacts();
    NormalizeVia("http://abc ", "http://abc", "http://abc");
  }

  lemma TrailingSpaceFacts()
    ensures Trim("http://abc ") == "http://abc" && HasScheme("http://abc")
    ensures StripTrailing("http://abc", '/') == "http://abc"
  {
    TrimTrailingSpace();
    assert !EndsWith("http://abc", '/');
  }


  lemma TrimTrailingSpace()
    ensures Trim("http://abc ") == "http://abc"
  {
    TrimStartKeeps("http://abc ");
    TrimEndDrops("http://abc ");
    TrimEndKeeps("http://abc");
  }

  lemma TrimStartKeeps(s: string)
    requires s != [] && !IsWhitespace(s[0])
    ensures TrimStart(s) == s
  {
  }

  lemma TrimEndKeeps(s: string)
    requires s != [] && !IsWhitespace(s[|s| - 1])
    ensures TrimEnd(s) == s
  {
  }

  lemma TrimEndDrops(s: string)
    requires s != [] && IsWhitespace(s[|s| - 1])
    ensures TrimEnd(s) == TrimEnd(s[..|s| - 1])
  {
  }

  /** Whitespace before a trailing slash survives a first pass and is trimmed by the next. */
  lemma NormalizeInnerSpace()
    ensures NormalizeBaseUrl(NormalizeBaseUrl("abc /")) != NormalizeBaseUrl("abc /")
  {
    NormalizeSpaceSlash();
    NormalizeTrailingSpace();
  }

  /** Blank input gives the empty address. */
  lemma NormalizeBlank()
    ensures NormalizeBaseUrl("   ") == ""
  {
    assert Trim("   ") == [] by { assert forall i :: 0 <= i < 3 ==> IsWhitespace("   "[i]); }
  }

  /** A bare host gets `http://`. */
  lemma NormalizeBareHost()
    ensures NormalizeBaseUrl("192.168.1.5") == "http://192.168.1.5"
  {
    BareHostTrimmed();
    BareHostPrefixed();
    NormalizeVia("192.168.1.5", "192.168.1.5", "http://192.168.1.5");
  }

  lemma BareHostTrimmed()
    ensures Trim("192.168.1.5") == "192.168.1.5" && !HasScheme("192.168.1.5")
  {
    TrimStartKeeps("192.168.1.5");
    TrimEndKeeps("192.168.1.5");
  }

  lemma BareHostPrefixed()
    ensures StripTrailing("http://" + "192.168.1.5", '/') == "http://192.168.1.5"
  {
    assert "http://" + "192.168.1.5" == "http://192.168.1.5";
    assert !EndsWith("http://192.168.1.5", '/');
  }

  /** A trailing slash is dropped and `https` is kept. */
  lemma NormalizeHttps()
    ensures NormalizeBaseUrl("https://h/") == "https://h"
  {
    HttpsFacts();
    NormalizeVia("https://h/", "https://h/", "https://h");
  }

  lemma HttpsFacts()
    ensures Trim("https://h/") == "https://h/" && HasScheme("https://h/")
    ensures StripTrailing("https://h/", '/') == "https://h"
  {
    TrimStartKeeps("https://h/");
    TrimEndKeeps("https://h/");
    HttpsStripped();
  }

  lemma HttpsStripped()
    ensures StripTrailing("https://h/", '/') == "https://h"
  {
    var s := "https://h/";
    assert s[..9] == "https://h";
    StripOne(s, '/');
  }

  /** One trailing `c` goes and stripping goes on. */
  lemma StripDrop(s: string, c: char)
    requires EndsWith(s, c)
    ensures StripTrailing(s, c) == StripTrailing(s[..|s| - 1], c)
  {
  }

  /** Stripping stops once the last character differs. */
  lemma StripOne(s: string, c: char)
    requires s != [] && s[|s| - 1] == c && !EndsWith(s[..|s| - 1], c)
    ensures StripTrailing(s, c) == s[..|s| - 1]
  {
  }
}
