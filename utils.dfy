/**
 * The string and classification helpers of lib/utils.ts: `slugify`,
 * `truncate`, `getImageUrl`, `isInStock` and `getStockStatus`.
 */
module Utils {
  import opened Wrappers
  import opened Seqs
  import opened Text

  predicate IsSlugChar(c: char) { IsAsciiLower(c) || IsDigit(c) || c == '-' }

  /** Lower-case letters, digits and single inner dashes only. */
  predicate IsSlug(s: string)
  {
    && (forall i :: 0 <= i < |s| ==> IsSlugChar(s[i]))
    && NoDoubleDash(s)
    && (s != [] ==> s[0] != '-' && s[|s| - 1] != '-')
  }

  /** Characters of the class `[\w\s-]`, the ones `slugify` keeps. */
  predicate KeptBySlugify(c: char) { IsWordChar(c) || IsSpace(c) || c == '-' }

  /** Characters of the class `[\s_-]`, whose runs `slugify` turns into one '-'. */
  predicate IsSlugSeparator(c: char) { IsSpace(c) || c == '_' || c == '-' }

  predicate IsDash(c: char) { c == '-' }

  /**
   * `slugify`: lowercase, trim, drop characters outside `[\w\s-]`, turn
   * each run of `[\s_-]` into '-', strip leading and trailing dashes.
   */
  function Slugify(text: string): string
  {
    TrimBy(CollapseRuns(Filter(Trim(Lower(text)), KeptBySlugify), IsSlugSeparator), IsDash)
  }

  /** A character that `slugify` keeps and that is not upper case is a separator or a slug character. */
  lemma KeptCharShape(c: char)
    requires KeptBySlugify(c) && !IsAsciiUpper(c)
    ensures IsSlugSeparator(c) || IsAsciiLower(c) || IsDigit(c)
  {
  }

  /** Lowercasing then trimming leaves no upper-case ASCII letter. */
  lemma LoweredHasNoUpper(text: string)
    ensures forall i :: 0 <= i < |Trim(Lower(text))| ==> !IsAsciiUpper(Trim(Lower(text))[i])
  {
    TrimByKeeps(Lower(text), IsSpace, c => !IsAsciiUpper(c));
  }

  /** Separators, lower-case letters and digits only. */
  predicate IsSlugInput(s: string)
  {
    forall i :: 0 <= i < |s| ==> IsSlugSeparator(s[i]) || IsAsciiLower(s[i]) || IsDigit(s[i])
  }

  /** After the first three steps only slug characters and separators remain. */
  lemma KeptChars(text: string)
    ensures IsSlugInput(Filter(Trim(Lower(text)), KeptBySlugify))
  {
    var lowered := Trim(Lower(text));
    var kept := Filter(lowered, KeptBySlugify);
    LoweredHasNoUpper(text);
    FilterFromSource(lowered, KeptBySlugify);
    forall i | 0 <= i < |kept|
      ensures IsSlugSeparator(kept[i]) || IsAsciiLower(kept[i]) || IsDigit(kept[i])
    {
      assert kept[i] in lowered;
      KeptCharShape(kept[i]);
    }
  }

  /** `slugify` always yields a slug. */
  lemma SlugifyIsSlug(text: string)
    ensures IsSlug(Slugify(text))
  {
    KeptChars(text);
    SlugFromKept(Filter(Trim(Lower(text)), KeptBySlugify));
  }

  /** Collapsing separators and stripping dashes turns separators and slug characters into a slug. */
  lemma SlugFromKept(kept: string)
    requires IsSlugInput(kept)
    ensures IsSlug(TrimBy(CollapseRuns(kept, IsSlugSeparator), IsDash))
  {
    CollapseKeeps(kept, IsSlugSeparator, c => IsAsciiLower(c) || IsDigit(c));
    var collapsed := CollapseRuns(kept, IsSlugSeparator);
    assert forall i :: 0 <= i < |collapsed| ==> IsSlugChar(collapsed[i]);
    assert IsSlugSeparator('-');
    TrimmedDashesIsSlug(collapsed);
  }

  /** Stripping the outer dashes of slug characters without "--" gives a slug. */
  lemma TrimmedDashesIsSlug(s: string)
    requires forall i :: 0 <= i < |s| ==> IsSlugChar(s[i])
    requires NoDoubleDash(s)
    ensures IsSlug(TrimBy(s, IsDash))
  {
    var r := TrimBy(s, IsDash);
    var a := LeadCount(s, IsDash);
    TrimByKeeps(s, IsDash, IsSlugChar);
    NoDoubleDashSlice(s, a, a + |r|);
  }

  lemma SlugCharNotSpace(c: char)
    requires IsSlugChar(c)
    ensures !IsSpace(c)
  {
  }

  /** The first steps of `slugify` leave a slug as it is. */
  lemma SlugPrefixSteps(s: string)
    requires IsSlug(s)
    ensures Filter(Trim(Lower(s)), KeptBySlugify) == s
  {
    LowerNoUpper(s);
    forall i | 0 <= i < |s| ensures !IsSpace(s[i]) { SlugCharNotSpace(s[i]); }
    TrimByNothing(s, IsSpace);
    FilterAll(s, KeptBySlugify);
  }

  /** In a slug every separator is a lone '-', so collapsing leaves it as it is. */
  lemma SlugCollapseSteps(s: string)
    requires IsSlug(s)
    ensures CollapseRuns(s, IsSlugSeparator) == s
  {
    forall i | 0 <= i < |s| ensures s[i] == '-' || !IsSlugSeparator(s[i]) { SlugCharNotSpace(s[i]); }
    CollapseSingleDashes(s, IsSlugSeparator);
  }

  /** Every step of `slugify` leaves a slug as it is. */
  lemma SlugifyFixesSlugs(s: string)
    requires IsSlug(s)
    ensures Slugify(s) == s
  {
    SlugPrefixSteps(s);
    SlugCollapseSteps(s);
    TrimByUntouched(s, IsDash);
  }

  /** `slugify` is idempotent. */
  lemma SlugifyIdempotent(text: string)
    ensures Slugify(Slugify(text)) == Slugify(text)
  {
    SlugifyIsSlug(text);
    SlugifyFixesSlugs(Slugify(text));
  }

  /** Default of `truncate`'s `length` parameter. */
  const DefaultTruncateLength := 100

  /**
   * `truncate(text, length)`. `substring(0, length)` treats a negative
   * length as 0, which the clamp to `cut` reproduces.
   */
  function Truncate(text: string, length: int): (r: string)
    ensures |text| <= length ==> r == text
    ensures |text| > length ==> |r| >= 3 && r[|r| - 3..] == "..."
    ensures |text| > length ==> |r| <= (if length < 0 then 0 else length) + 3
    ensures |text| > length ==> r[..|r| - 3] == Trim(text[..if length < 0 then 0 else length])
  {
    if |text| <= length then text
    else
      var cut := if length < 0 then 0 else length;
      Trim(text[..cut]) + "..."
  }

  /** `truncate(text)` with the default length of 100. */
  function TruncateDefault(text: string): (r: string)
    ensures |text| <= DefaultTruncateLength ==> r == text
    ensures |text| > DefaultTruncateLength ==> 3 <= |r| <= DefaultTruncateLength + 3 && r[|r| - 3..] == "..."
  {
    Truncate(text, DefaultTruncateLength)
  }

  /** Image stored when a path is empty. */
  const Placeholder := "/placeholder.jpg"

  /** Default of `getImageUrl`'s `bucket` parameter. */
  const DefaultBucket := "products"

  /**
   * `getImageUrl(path, bucket)`. `bucket` is `None` when the caller leaves
   * it out; `supabaseUrl` is the `NEXT_PUBLIC_SUPABASE_URL` environment
   * variable, which a template literal renders as "undefined" when unset.
   */
  function GetImageUrl(path: string, bucket: Option<string>, supabaseUrl: Option<string>): (r: string)
    ensures path == "" ==> r == Placeholder
    ensures path != "" && "http" <= path ==> r == path
    ensures path != "" && !("http" <= path) ==>
              r == BaseUrl(supabaseUrl) + "/storage/v1/object/public/" + BucketName(bucket) + "/" + path
  {
    if path == "" then Placeholder
    else if "http" <= path then path
    else BaseUrl(supabaseUrl) + "/storage/v1/object/public/" + BucketName(bucket) + "/" + path
  }

  function BucketName(bucket: Option<string>): string
  {
    match bucket
    case None => DefaultBucket
    case Some(b) => b
  }

  function BaseUrl(supabaseUrl: Option<string>): string
  {
    match supabaseUrl
    case None => "undefined"
    case Some(u) => u
  }

  /** Every non-empty path ends the URL built from it, and no URL is empty. */
  lemma ImageUrlEndsWithPath(path: string, bucket: Option<string>, supabaseUrl: Option<string>)
    ensures GetImageUrl(path, bucket, supabaseUrl) != ""
    ensures path != "" ==> |path| <= |GetImageUrl(path, bucket, supabaseUrl)|
    ensures path != "" ==>
              var r := GetImageUrl(path, bucket, supabaseUrl);
              r[|r| - |path|..] == path
  {
  }

  /** `isInStock`. */
  predicate IsInStock(stock: int)
  {
    stock > 0
  }

  /** `getStockStatus`: three tiers; negative stock falls in the middle one. */
  function GetStockStatus(stock: int): (r: string)
    ensures r == "Out of stock" <==> stock == 0
    ensures r == "Low stock" <==> stock != 0 && stock < 10
    ensures r == "In stock" <==> stock >= 10
  {
    if stock == 0 then "Out of stock"
    else if stock < 10 then "Low stock"
    else "In stock"
  }

  /**
   * For non-negative stock the label says "Out of stock" exactly when
   * `isInStock` is false; a negative stock is "Low stock" yet not in stock.
   */
  lemma StockStatusAgreesWithIsInStock(stock: int)
    ensures stock >= 0 ==> (IsInStock(stock) <==> GetStockStatus(stock) != "Out of stock")
    ensures stock < 0 ==> !IsInStock(stock) && GetStockStatus(stock) == "Low stock"
  {
  }
}
