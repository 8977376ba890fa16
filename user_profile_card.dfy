/**
 * A user's public profile card (components/shared/user-profile-card.tsx):
 * loading and error branches, the optional signature block and the tag
 * badges cut from a comma-separated string.
 */
module UserProfileCard {
  import opened Wrappers
  import opened Types
  import opened Text
  import Utils
  import opened Seqs

  /** The badge of one segment: its trimmed text, unless that is empty. */
  function SegmentBadge(segment: string): (r: seq<string>)
    ensures |r| <= 1
    ensures forall k :: 0 <= k < |r| ==> r[k] == Trim(segment) && |r[k]| > 0
  {
    var t := Trim(segment);
    if |t| == 0 then [] else [t]
  }

  /** The badge texts of a tags string: every comma-separated segment trimmed, the empty ones dropped. */
  function Badges(tags: string): seq<string> {
    FlatMap(Split(tags, ','), SegmentBadge)
  }

  /** A badge text: non-empty, with no white space at either end. */
  predicate Clean(badge: string) {
    |badge| > 0 && !IsSpace(badge[0]) && !IsSpace(badge[|badge| - 1])
  }

  /** A non-empty trimmed text has no white space at either end. */
  lemma TrimClean(s: string)
    requires |Trim(s)| > 0
    ensures Clean(Trim(s))
  {
  }

  /** No badge is empty and none starts or ends with white space. */
  lemma BadgesClean(tags: string, i: nat)
    requires i < |Badges(tags)|
    ensures Clean(Badges(tags)[i])
  {
    forall x, k | 0 <= k < |SegmentBadge(x)|
      ensures Clean(SegmentBadge(x)[k])
    {
      TrimClean(x);
    }
    FlatMapEach(Split(tags, ','), SegmentBadge, Clean);
  }

  /** Badges keep the order of their segments: the badges of two joined lists are the two lists of badges. */
  lemma BadgesConcat(a: string, b: string)
    ensures Badges(a + "," + b) == Badges(a) + Badges(b)
  {
    assert a + "," + b == a + [','] + b;
    SplitConcat(a, b, ',');
    FlatMapConcat(Split(a, ','), Split(b, ','), SegmentBadge);
  }

  /** One segment gives its trimmed text as a badge, or no badge when it is only white space. */
  lemma BadgesSegment(s: string)
    requires ',' !in s
    ensures Badges(s) == if Trim(s) == "" then [] else [Trim(s)]
  {
    SplitNoSeparator(s, ',');
    FlatMapSingle(s, SegmentBadge);
  }

  /** What the card shows for a loaded user. */
  datatype ProfileBody = ProfileBody(
    avatarUrl: string,
    initials: string,
    nickname: string,
    handle: string,
    signature: Option<string>,
    badges: Option<seq<string>>)

  datatype ProfileView = CardSkeleton | LoadError | Loaded(body: ProfileBody)

  /**
   * A skeleton while loading, the error text on a fetch error or a missing
   * user, else the profile; the signature block only for a non-empty
   * signature and the tag block only for a non-empty tags string.
   */
  function Card(user: Option<User>, error: bool, isLoading: bool): (v: ProfileView)
    ensures v.CardSkeleton? <==> isLoading
    ensures v.LoadError? <==> !isLoading && (error || user.None?)
    ensures v.Loaded? ==> user.Some? && v.body.nickname == user.value.nickname
    ensures v.Loaded? ==> v.body.avatarUrl == user.value.avatarUrl
    ensures v.Loaded? ==> |v.body.handle| == |user.value.username| + 1 && v.body.handle[0] == '@' && v.body.handle[1..] == user.value.username
    ensures v.Loaded? && v.body.signature.Some? ==> v.body.signature.value == user.value.signature
    ensures v.Loaded? ==> (v.body.signature.Some? <==> user.value.signature != "")
    ensures v.Loaded? ==> (v.body.badges.Some? <==> Truthy(user.value.tags))
    ensures v.Loaded? && v.body.badges.Some? ==> v.body.badges.value == Badges(user.value.tags.value)
    ensures v.Loaded? ==> v.body.initials == Utils.GetInitials(user.value.nickname) && |v.body.initials| <= 2
  {
    if isLoading then CardSkeleton
    else if error || user.None? then LoadError
    else
      var u := user.value;
      Loaded(ProfileBody(
        u.avatarUrl,
        Utils.GetInitials(u.nickname),
        u.nickname,
        "@" + u.username,
        if u.signature != "" then Some(u.signature) else None,
        if Truthy(u.tags) then Some(Badges(u.tags.value)) else None))
  }
}
