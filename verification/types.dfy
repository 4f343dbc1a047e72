/** The records the client exchanges with the backend. Only the fields the
    modelled logic reads are kept; timestamps and URLs that are merely
    displayed are left out. */
module Types {
  import opened Outcomes

  type UserId = string
  type PostId = int

  /** A user's role: exactly one of three values. */
  datatype Role = USER | CREATOR | ADMIN

  /** The spelling of a role on the wire and in the `User.role` union. */
  function RoleName(r: Role): (s: string)
    ensures |s| >= 4
    ensures forall i :: 0 <= i < |s| ==> 'A' <= s[i] <= 'Z'
  {
    match r
    case USER => "USER"
    case CREATOR => "CREATOR"
    case ADMIN => "ADMIN"
  }

  /** Distinct roles have distinct names, so comparing names compares roles. */
  lemma RoleNameInjective(a: Role, b: Role)
    ensures RoleName(a) == RoleName(b) <==> a == b
  {
  }

  datatype User = User(
    id: UserId,
    firstName: string,
    lastName: string,
    email: string,
    role: Role,
    bio: Option<string>)

  /** A media item is a photo or a video; nothing else. */
  datatype MediaType = Photo | Video

  datatype PostMedia = PostMedia(
    id: int,
    postId: PostId,
    mediaUrl: string,
    mediaType: MediaType,
    thumbnailUrl: Option<string>,
    orderIndex: int)

  /** A vote is an upvote or a downvote. */
  type VoteValue = v: int | v == 1 || v == -1 witness 1

  datatype Vote = Vote(id: int, userId: UserId, postId: PostId, value: VoteValue)

  datatype Comment = Comment(id: int, userId: UserId, postId: PostId, content: string)

  /** A post: `isPublic` is mandatory, the rest of the displayed data optional. */
  datatype Post = Post(
    id: PostId,
    creatorId: UserId,
    title: Option<string>,
    description: Option<string>,
    isPublic: bool,
    media: Option<seq<PostMedia>>,
    comments: Option<seq<Comment>>,
    voteCount: Option<int>,
    userVote: Option<int>)
  {
    /** The media list, empty when the field is missing. */
    function Media(): seq<PostMedia> {
      media.GetOr([])
    }

    /** The item at `idx` exists and is a video. */
    predicate VideoAt(idx: int) {
      0 <= idx < |Media()| && Media()[idx].mediaType == Video
    }

    /** `post.voteCount || 0`. */
    function Likes(): int {
      voteCount.GetOr(0)
    }

    /** `post.comments?.length || 0`. */
    function CommentCount(): nat {
      |comments.GetOr([])|
    }
  }

  /** A count as displayed: the number, or '?' when the content is locked. */
  datatype CountLabel = Hidden | Count(n: int)

  function CountShown(locked: bool, n: int): (l: CountLabel)
    ensures l.Hidden? <==> locked
    ensures l.Count? ==> l.n == n
  {
    if locked then Hidden else Count(n)
  }

  /** A subscription links a subscriber to a creator and says whether it is
      still active; expired ones are kept as history. */
  datatype Subscription = Subscription(
    id: int,
    subscriberId: UserId,
    creatorId: UserId,
    isActive: bool)

  /** One page of a paginated listing. */
  datatype Page<T> = Page(content: seq<T>, totalElements: nat, totalPages: nat)

  /** The envelope of every backend reply: a success flag, a payload that
      may be missing at run time although typed as present, and an optional
      message. */
  datatype ApiResponse<T> = ApiResponse(data: Option<T>, message: Option<string>, success: bool)
}
