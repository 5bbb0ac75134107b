/**
 * The rules both upload sites share (app/supplier/page.tsx, app/me/page.tsx): the
 * `image/` type test, the file extension taken from the name, and the translation
 * of a storage error message into the text shown to the user.
 */
module Storage {
  import opened Wrappers
  import opened Text
  import opened Identity

  /** `type.startsWith('image/')`. */
  predicate IsImageType(mimeType: string) {
    StartsWith(mimeType, "image/")
  }

  const DefaultExtension: string := ['j', 'p', 'g']

  /**
   * `name.split('.').pop() || 'jpg'`: the text after the last dot, the whole name
   * when it has no dot, and `jpg` when that text is empty.
   */
  function FileExtension(name: string): (ext: string)
    ensures ext != []
    ensures LastSegment(name, '.') != [] ==> ext == LastSegment(name, '.')
    ensures LastSegment(name, '.') == [] ==> ext == DefaultExtension
  {
    var last := LastSegment(name, '.');
    if last == [] then DefaultExtension else last
  }

  /** A name of the form `base.ext`, with no dot in `ext`, yields `ext`. */
  lemma ExtensionAfterLastDot(base: string, ext: string)
    requires ext != [] && forall i :: 0 <= i < |ext| ==> ext[i] != '.'
    ensures FileExtension(base + "." + ext) == ext
  {
    LastSegmentAfterSeparator(base, '.', ext);
  }

  /** A name without a dot is its own extension. */
  lemma {:induction false} ExtensionOfDotlessName(name: string)
    requires name != [] && forall i :: 0 <= i < |name| ==> name[i] != '.'
    ensures FileExtension(name) == name
  {
    LastSegmentOfDotless(name);
  }

  lemma {:induction false} LastSegmentOfDotless(s: string)
    requires forall i :: 0 <= i < |s| ==> s[i] != '.'
    ensures LastSegment(s, '.') == s
  {
    if s != [] {
      LastSegmentOfDotless(s[..|s| - 1]);
      assert s[..|s| - 1] + [s[|s| - 1]] == s;
    }
  }

  /** The three texts one upload site shows for a failed upload. */
  datatype UploadMessages = UploadMessages(bucketMissing: string, rlsBlocked: string, fallback: string)

  const BucketNotFound: string := "bucket not found"
  const RowLevelSecurity: string := "row-level security"

  /**
   * The `catch` of an upload: `/bucket not found/i` first, then
   * `/row-level security/i`, then the message itself or the fallback text.
   */
  function UploadErrorText(msg: Option<string>, texts: UploadMessages): (t: string)
    ensures t == texts.bucketMissing || t == texts.rlsBlocked || t == texts.fallback || (msg.Some? && t == msg.value)
    ensures msg.None? ==> t == texts.fallback
  {
    if Truthy(msg) && ContainsIgnoreCase(msg.value, BucketNotFound) then texts.bucketMissing
    else if Truthy(msg) && ContainsIgnoreCase(msg.value, RowLevelSecurity) then texts.rlsBlocked
    else msg.GetOr(texts.fallback)
  }

  /** A message that mentions a missing bucket in any letter case, anywhere, gets the bucket text. */
  lemma {:induction false} MissingBucketAnyCase(pre: string, m: string, post: string, texts: UploadMessages)
    requires Lower(m) == Lower(BucketNotFound)
    ensures UploadErrorText(Some(pre + m + post), texts) == texts.bucketMissing
  {
    assert |m| == |Lower(m)| == |BucketNotFound|;
    assert pre + m + post != "";
    ContainsIgnoreCaseInfix(pre, m, post, BucketNotFound);
  }
}
