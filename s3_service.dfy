/**
 * The object URLs `S3Service.uploadFile` returns and `getKeyFromUrl`, which
 * recovers an object key from such a URL.
 */
module S3Service {
  import opened Wrappers
  import opened Text

  /** The bucket-name segment `getKeyFromUrl` drops when a path starts with it. */
  const PathBucket := "neo-sante-app"

  /** The URL `uploadFile` returns for a key (the bucket and region come from the environment). */
  function UploadUrl(bucket: string, region: string, key: string): string {
    "https://" + bucket + ".s3." + region + ".amazonaws.com/" + key
  }

  predicate EndsPath(c: char) { c == '?' || c == '#' }

  /** The index of the first character of `s` satisfying `stop`, or `|s|`. */
  function FirstStop(s: string, slashStops: bool): (i: nat)
    ensures i <= |s|
    ensures forall j | 0 <= j < i :: !EndsPath(s[j]) && (slashStops ==> s[j] != '/')
    ensures i < |s| ==> EndsPath(s[i]) || (slashStops && s[i] == '/')
  {
    if s == [] || EndsPath(s[0]) || (slashStops && s[0] == '/') then 0
    else 1 + FirstStop(s[1..], slashStops)
  }

  /**
   * `new URL(url).pathname` for an absolute `http` or `https` URL: the text
   * after the host up to a query or fragment, "/" when that is empty; None
   * where the constructor throws.
   */
  function UrlPathname(url: string): Option<string> {
    var rest :=
      if StartsWith(url, "https://") then Some(url[8..])
      else if StartsWith(url, "http://") then Some(url[7..])
      else None;
    if rest.None? then None
    else
      var afterScheme := rest.value;
      var hostEnd := FirstStop(afterScheme, true);
      if hostEnd == 0 then None
      else
        var tail := afterScheme[hostEnd..];
        var path := tail[..FirstStop(tail, false)];
        Some(if path == "" then "/" else path)
  }

  /** `rest` without a leading segment `b`: "" when `rest` is `b`, the text after "b/" when it starts so, else `rest`. */
  function DropLeadingSegment(rest: string, b: string): string {
    if rest == b then ""
    else if StartsWith(rest, b + "/") then rest[|b| + 1..]
    else rest
  }

  /** What the key is for a pathname "/" + rest: rest, without a leading bucket segment. */
  function KeyOfPath(rest: string): string {
    DropLeadingSegment(rest, PathBucket)
  }

  /** What `getKeyFromUrl` promises: the pathname's key, or null for a URL that does not parse. */
  function KeyFromUrl(url: string): Option<string> {
    match UrlPathname(url)
      case None => None
      case Some(p) => Some(KeyOfPath(p[1..]))
  }

  /** `getKeyFromUrl`: split the pathname at '/', shift the leading empty part and the bucket segment, join. */
  method GetKeyFromUrl(url: string) returns (key: Option<string>)
    ensures key == KeyFromUrl(url)
  {
    var pathname := UrlPathname(url);
    if pathname.None? {
      return None;
    }
    var p := pathname.value;
    var pathParts := Split(p, '/');
    PathnameSplit(p);
    pathParts := pathParts[1..];
    if |pathParts| > 0 && pathParts[0] == PathBucket {
      pathParts := pathParts[1..];
    }
    key := Some(Join(pathParts, '/'));
    JoinAfterShifts(p[1..]);
  }

  /** A pathname always starts with '/'. */
  lemma PathnameStartsWithSlash(url: string)
    requires UrlPathname(url).Some?
    ensures |UrlPathname(url).value| >= 1 && UrlPathname(url).value[0] == '/'
  {
    var rest := if StartsWith(url, "https://") then url[8..] else url[7..];
    var hostEnd := FirstStop(rest, true);
    var tail := rest[hostEnd..];
    var path := tail[..FirstStop(tail, false)];
    if path != "" {
      assert tail[0] == rest[hostEnd];
    }
  }

  /** Splitting "/" + rest gives an empty part, then the parts of rest. */
  lemma PathnameSplit(p: string)
    requires |p| >= 1 && p[0] == '/'
    ensures Split(p, '/') == [""] + Split(p[1..], '/')
  {
  }

  /** Joining the parts of rest after the shifts gives exactly its key. */
  lemma JoinAfterShifts(rest: string)
    ensures var parts := Split(rest, '/');
      Join(if parts[0] == PathBucket then parts[1..] else parts, '/') == KeyOfPath(rest)
  {
    assert '/' !in PathBucket;
    JoinAfterDroppingSegment(rest, PathBucket);
  }

  /** Shifting a first part equal to `b` off the split and joining drops the segment `b`. */
  lemma JoinAfterDroppingSegment(rest: string, b: string)
    requires '/' !in b
    ensures var parts := Split(rest, '/');
      Join(if parts[0] == b then parts[1..] else parts, '/') == DropLeadingSegment(rest, b)
  {
    var parts := Split(rest, '/');
    SplitHead(rest, '/');
    if parts[0] == b {
      if |b| == |rest| {
        assert rest == b;
        assert parts[1..] == [];
      } else {
        var suffix := rest[|b| + 1..];
        assert parts[1..] == Split(suffix, '/');
        JoinSplit(suffix, '/');
        assert rest[..|b + "/"|] == b + "/";
      }
    } else {
      JoinSplit(rest, '/');
      SegmentFirst(rest, b);
    }
  }

  /** A path that is the segment `b`, or starts with it and a '/', has it as its first part. */
  lemma SegmentFirst(rest: string, b: string)
    requires '/' !in b
    ensures (rest == b || StartsWith(rest, b + "/")) ==> Split(rest, '/')[0] == b
  {
    SplitWithoutSeparator(b, '/');
    if StartsWith(rest, b + "/") {
      var suffix := rest[|b| + 1..];
      assert rest == b + ['/'] + suffix;
      SplitConcat(b, suffix, '/');
    }
  }

  /** Characters that keep a host intact: no '/', '?' or '#'. */
  predicate HostChars(s: string) {
    forall i | 0 <= i < |s| :: s[i] != '/' && !EndsPath(s[i])
  }

  /** Characters that keep a path intact: no '?' or '#'. */
  predicate PathChars(s: string) {
    forall i | 0 <= i < |s| :: !EndsPath(s[i])
  }

  /**
   * Characters the URL parser copies into the pathname unchanged: ASCII
   * letters and digits and "-._~!$&'()*+,;=:@%/". Any other character (a
   * space, a non-ASCII letter, a backslash, ...) would come back altered.
   * '%' is copied too, but an encoded dot segment is then resolved away.
   */
  predicate UrlSafeChar(c: char) {
    || 'a' <= c <= 'z' || 'A' <= c <= 'Z' || '0' <= c <= '9'
    || c in "-._~!$&'()*+,;=:@%/"
  }

  /** A segment the parser treats as "." or "..", written plainly or with '.' percent-encoded in either case. */
  predicate DotSegment(seg: string) {
    seg in {".", "%2e", "%2E", "..", ".%2e", ".%2E", "%2e.", "%2E.", "%2e%2e", "%2e%2E", "%2E%2e", "%2E%2E"}
  }

  /** A key the pathname carries through as it is: safe characters and no dot segment. */
  predicate UrlSafeKey(key: string) {
    && (forall i | 0 <= i < |key| :: UrlSafeChar(key[i]))
    && (forall seg | seg in Split(key, '/') :: !DotSegment(seg))
  }

  lemma HostCharsConcat(a: string, b: string)
    requires HostChars(a) && HostChars(b)
    ensures HostChars(a + b)
  {
    forall i | 0 <= i < |a + b|
      ensures (a + b)[i] != '/' && !EndsPath((a + b)[i])
    {
      if i >= |a| {
        assert (a + b)[i] == b[i - |a|];
      }
    }
  }

  /**
   * The URL `uploadFile` returns gives back its key, provided the bucket and
   * region keep the host intact, the key is one the pathname carries through
   * unchanged and does not itself start with the bucket segment.
   */
  lemma UploadUrlRoundTrip(bucket: string, region: string, key: string)
    requires bucket != "" && HostChars(bucket) && HostChars(region)
    requires UrlSafeKey(key)
    requires key != PathBucket && !StartsWith(key, PathBucket + "/")
    ensures KeyFromUrl(UploadUrl(bucket, region, key)) == Some(key)
  {
    assert PathChars(key) by {
      forall i | 0 <= i < |key|
        ensures !EndsPath(key[i])
      {
        assert UrlSafeChar(key[i]);
      }
    }
    var host := bucket + ".s3." + region + ".amazonaws.com";
    assert HostChars(".s3.") && HostChars(".amazonaws.com");
    HostCharsConcat(bucket, ".s3.");
    HostCharsConcat(bucket + ".s3.", region);
    HostCharsConcat(bucket + ".s3." + region, ".amazonaws.com");
    assert UploadUrl(bucket, region, key) == "https://" + host + "/" + key;
    PathnameOfUrl(host, key);
  }

  /** The pathname of "https://host/key" is "/key". */
  lemma PathnameOfUrl(host: string, key: string)
    requires host != "" && HostChars(host) && PathChars(key)
    ensures UrlPathname("https://" + host + "/" + key) == Some("/" + key)
  {
    var url := "https://" + host + "/" + key;
    var afterScheme := host + "/" + key;
    assert url == "https://" + afterScheme;
    assert url[..8] == "https://";
    assert url[8..] == afterScheme;
    assert afterScheme == host + ("/" + key);
    HostEnd(host, "/" + key);
    var tail := afterScheme[|host|..];
    assert tail == "/" + key;
    assert PathChars(tail) by {
      assert forall i | 1 <= i < |tail| :: tail[i] == key[i - 1];
    }
    NoStop(tail);
    assert tail[..|tail|] == tail;
  }

  /** The host ends at the first '/'. */
  lemma {:induction false} HostEnd(host: string, tail: string)
    requires HostChars(host)
    requires |tail| >= 1 && tail[0] == '/'
    ensures FirstStop(host + tail, true) == |host|
  {
    if host != [] {
      assert (host + tail)[1..] == host[1..] + tail;
      HostEnd(host[1..], tail);
    }
  }

  /** A path without query or fragment markers runs to the end. */
  lemma {:induction false} NoStop(s: string)
    requires PathChars(s)
    ensures FirstStop(s, false) == |s|
  {
    if s != [] {
      NoStop(s[1..]);
    }
  }
}
