/** `src/hooks/usePosts.ts`: the optimistic vote toggle on the cached post list
    with its rollback, and the hashtag split done before a post is created. */
module Posts {
  import opened Wrappers
  import opened Text
  import opened Seqs
  import opened QueryCache
  import opened ApiClient

  datatype VoteValue = Upvote | Downvote

  datatype Author = Author(id: string, username: string)
  datatype MediaItem = MediaItem(id: string, url: string)

  /** `Post` from the post API. */
  datatype Post = Post(
    id: string,
    content: string,
    upvotes: int,
    downvotes: int,
    topics: seq<string>,
    media: seq<MediaItem>,
    createdAt: string,
    commentCount: int,
    userVote: Option<VoteValue>,
    author: Author)

  const PostsKey: QueryKey := [Str("posts")]

  // ---------------------------------------------------------------- the vote delta

  /** The caller's own contribution to the counter of `side`. */
  function Own(userVote: Option<VoteValue>, side: VoteValue): int {
    if userVote == Some(side) then 1 else 0
  }

  /** The caller's vote after requesting `v`: the same vote again clears it. */
  function Toggled(prev: Option<VoteValue>, v: VoteValue): Option<VoteValue> {
    if prev == Some(v) then None else Some(v)
  }

  /** The optimistic effect of a vote on one post, stated as a conservation law:
      the caller's vote toggles, and each counter, less the caller's own
      contribution to it, is the same before and after. */
  function Voted(p: Post, v: VoteValue): (r: Post)
    ensures r.userVote == Toggled(p.userVote, v)
    ensures r.upvotes - Own(r.userVote, Upvote) == p.upvotes - Own(p.userVote, Upvote)
    ensures r.downvotes - Own(r.userVote, Downvote) == p.downvotes - Own(p.userVote, Downvote)
    ensures r.(upvotes := p.upvotes, downvotes := p.downvotes, userVote := p.userVote) == p
  {
    var nv := Toggled(p.userVote, v);
    p.(userVote := nv,
       upvotes := p.upvotes - Own(p.userVote, Upvote) + Own(nv, Upvote),
       downvotes := p.downvotes - Own(p.userVote, Downvote) + Own(nv, Downvote))
  }

  /** The body of the `map` callback for the voted post (lines 77-92): copy the
      post, then adjust its counters one step at a time. */
  method ApplyVote(post: Post, vote: VoteValue) returns (newPost: Post)
    ensures newPost == Voted(post, vote)
  {
    newPost := post;
    if post.userVote == Some(vote) {
      if vote == Upvote { newPost := newPost.(upvotes := newPost.upvotes - 1); }
      if vote == Downvote { newPost := newPost.(downvotes := newPost.downvotes - 1); }
      newPost := newPost.(userVote := None);
    } else {
      if post.userVote == Some(Upvote) { newPost := newPost.(upvotes := newPost.upvotes - 1); }
      if post.userVote == Some(Downvote) { newPost := newPost.(downvotes := newPost.downvotes - 1); }
      if vote == Upvote { newPost := newPost.(upvotes := newPost.upvotes + 1); }
      if vote == Downvote { newPost := newPost.(downvotes := newPost.downvotes + 1); }
      newPost := newPost.(userVote := Some(vote));
    }
  }

  function Other(v: VoteValue): VoteValue {
    if v == Upvote then Downvote else Upvote
  }

  /** Voting what the post already has undoes it: the vote clears, that counter
      drops by one and the other counter stays. */
  lemma VoteSameUndoes(p: Post, v: VoteValue)
    requires p.userVote == Some(v)
    ensures Voted(p, v).userVote == None
    ensures v == Upvote ==> Voted(p, v).upvotes == p.upvotes - 1 && Voted(p, v).downvotes == p.downvotes
    ensures v == Downvote ==> Voted(p, v).downvotes == p.downvotes - 1 && Voted(p, v).upvotes == p.upvotes
  {
  }

  /** Voting something else moves the caller's vote: the previous vote's
      counter (if any) drops by one, the new one's grows by one. */
  lemma VoteDifferentMoves(p: Post, v: VoteValue)
    requires p.userVote != Some(v)
    ensures Voted(p, v).userVote == Some(v)
    ensures v == Upvote ==> Voted(p, v).upvotes == p.upvotes + 1
    ensures v == Downvote ==> Voted(p, v).downvotes == p.downvotes + 1
    ensures v == Upvote ==> Voted(p, v).downvotes == p.downvotes - (if p.userVote == Some(Downvote) then 1 else 0)
    ensures v == Downvote ==> Voted(p, v).upvotes == p.upvotes - (if p.userVote == Some(Upvote) then 1 else 0)
  {
  }

  /** Voting `v` twice restores the post exactly when the caller had not
      chosen the opposite vote beforehand (from the opposite vote, the first
      call moves the vote and the second only clears it). */
  lemma {:induction false} VoteTwice(p: Post, v: VoteValue)
    ensures Voted(Voted(p, v), v) == p <==> p.userVote != Some(Other(v))
  {
    if p.userVote == Some(Other(v)) {
      assert Voted(Voted(p, v), v).userVote == None != p.userVote;
    } else {
      var q := Voted(p, v);
      var r := Voted(q, v);
      assert q.userVote == Toggled(p.userVote, v);
      assert r.userVote == Toggled(q.userVote, v);
      assert p.userVote == None || p.userVote == Some(v) by {
        if p.userVote.Some? {
          assert p.userVote.value != Other(v);
          match v { case Upvote => case Downvote => }
        }
      }
      assert r.userVote == p.userVote;
      assert r.upvotes == p.upvotes;
      assert r.downvotes == p.downvotes;
    }
  }

  /** Counters stay non-negative when each counter already includes the caller's own vote. */
  predicate Consistent(p: Post) {
    p.upvotes >= Own(p.userVote, Upvote) && p.downvotes >= Own(p.userVote, Downvote)
  }

  lemma {:induction false} VoteKeepsConsistent(p: Post, v: VoteValue)
    requires Consistent(p)
    ensures Consistent(Voted(p, v))
    ensures Voted(p, v).upvotes >= 0 && Voted(p, v).downvotes >= 0
  {
    var r := Voted(p, v);
    assert r.upvotes - Own(r.userVote, Upvote) == p.upvotes - Own(p.userVote, Upvote) >= 0;
    assert r.downvotes - Own(r.userVote, Downvote) == p.downvotes - Own(p.userVote, Downvote) >= 0;
  }

  /** The three steps of the vote example: `(none, 3, 1)`, up, up, then up and down. */
  lemma VoteExample(p: Post)
    requires p.userVote == None && p.upvotes == 3 && p.downvotes == 1
    ensures var a := Voted(p, Upvote); a.userVote == Some(Upvote) && a.upvotes == 4 && a.downvotes == 1
    ensures Voted(Voted(p, Upvote), Upvote) == p
    ensures var c := Voted(Voted(p, Upvote), Downvote); c.userVote == Some(Downvote) && c.upvotes == 3 && c.downvotes == 2
  {
  }

  // ---------------------------------------------------------------- the cached list

  /** `old.map(...)`: the vote applied to every post whose id is `postId`. */
  function VotePosts(posts: seq<Post>, postId: string, v: VoteValue): (r: seq<Post>)
    ensures |r| == |posts|
    ensures forall i :: 0 <= i < |posts| && posts[i].id != postId ==> r[i] == posts[i]
    ensures forall i :: 0 <= i < |posts| && posts[i].id == postId ==> r[i] == Voted(posts[i], v)
    ensures forall i :: 0 <= i < |posts| ==> r[i].id == posts[i].id
  {
    seq(|posts|, i requires 0 <= i < |posts| => if posts[i].id == postId then Voted(posts[i], v) else posts[i])
  }

  /** A list all of whose posts are consistent stays so after any vote. */
  lemma VotePostsConsistent(posts: seq<Post>, postId: string, v: VoteValue)
    requires forall i :: 0 <= i < |posts| ==> Consistent(posts[i])
    ensures forall i :: 0 <= i < |VotePosts(posts, postId, v)| ==> Consistent(VotePosts(posts, postId, v)[i])
  {
    forall i | 0 <= i < |posts| && posts[i].id == postId {
      VoteKeepsConsistent(posts[i], v);
    }
  }

  /** The updater passed to `setQueryData`: an absent list becomes `[]`. */
  function OptimisticPosts(cached: Option<seq<Post>>, postId: string, v: VoteValue): (r: seq<Post>)
    ensures cached.None? ==> r == []
    ensures cached.Some? ==> r == VotePosts(cached.value, postId, v)
  {
    match cached
    case None => []
    case Some(ps) => VotePosts(ps, postId, v)
  }

  datatype Vote = Vote(postId: string, vote: VoteValue)

  /** What `onMutate` hands to `onError`. */
  datatype VoteContext = VoteContext(previousPosts: Option<seq<Post>>)

  /** `onMutate`: snapshot the cached list, then write the optimistic list. */
  method OnMutate(cache: Cache<seq<Post>>, v: Vote) returns (ctx: VoteContext)
    modifies cache
    ensures ctx.previousPosts == old(cache.Get(PostsKey))
    ensures cache.entries == old(cache.entries)[PostsKey := OptimisticPosts(old(cache.Get(PostsKey)), v.postId, v.vote)]
    ensures cache.stale == old(cache.stale) - {PostsKey}
  {
    var previousPosts := cache.Get(PostsKey);
    cache.SetQueryData(PostsKey, OptimisticPosts(previousPosts, v.postId, v.vote));
    ctx := VoteContext(previousPosts);
  }

  /** `onError`: put the snapshot back if there was one (an empty array is a
      snapshot too: arrays are truthy). */
  method OnError(cache: Cache<seq<Post>>, ctx: VoteContext)
    modifies cache
    ensures ctx.previousPosts.Some? ==> cache.entries == old(cache.entries)[PostsKey := ctx.previousPosts.value]
    ensures ctx.previousPosts.Some? ==> cache.stale == old(cache.stale) - {PostsKey}
    ensures ctx.previousPosts.None? ==> cache.entries == old(cache.entries) && cache.stale == old(cache.stale)
  {
    if ctx.previousPosts.Some? {
      cache.SetQueryData(PostsKey, ctx.previousPosts.value);
    }
  }

  /** `useVotePost` end to end for one vote whose request settles with
      `response`: on failure the cached entries are exactly those before the
      vote when a list was cached; with no list cached the optimistic `[]`
      remains. On success the optimistic list stays (there is no invalidation).
      In every case a stale mark on `["posts"]` is lost: `setQueryData` makes
      the entry fresh, and the rollback writes rather than restores it. */
  method VotePost(cache: Cache<seq<Post>>, v: Vote, response: Result<(), Failure>) returns (r: Result<(), Failure>)
    modifies cache
    ensures r == response
    ensures response.Failure? && PostsKey in old(cache.entries) ==> cache.entries == old(cache.entries)
    ensures response.Failure? && PostsKey !in old(cache.entries) ==> cache.entries == old(cache.entries)[PostsKey := []]
    ensures response.Success? ==> cache.entries == old(cache.entries)[PostsKey := OptimisticPosts(old(cache.Get(PostsKey)), v.postId, v.vote)]
    ensures cache.stale == old(cache.stale) - {PostsKey}
  {
    var ctx := OnMutate(cache, v);
    if response.Failure? {
      OnError(cache, ctx);
      assert ctx.previousPosts.Some? ==> old(cache.entries)[PostsKey := ctx.previousPosts.value] == old(cache.entries);
    }
    r := response;
  }

  // ---------------------------------------------------------------- hashtags

  predicate IsHashtag(word: string) {
    |word| > 0 && word[0] == '#'
  }

  predicate IsPlainWord(word: string) {
    !IsHashtag(word)
  }

  /** `.map(word => word.slice(1))` over the hashtag words. */
  function DropFirst(words: seq<string>): (r: seq<string>)
    ensures |r| == |words|
    ensures forall i :: 0 <= i < |words| && words[i] != "" ==> r[i] == words[i][1..]
  {
    seq(|words|, i requires 0 <= i < |words| => if words[i] == "" then "" else words[i][1..])
  }

  /** The request body `createPost` sends. */
  datatype CreatePostBody = CreatePostBody(content: string, topics: seq<string>)

  /** Lines 37-43: split the text on single spaces; the words starting with
      '#' become topics without their '#', the others are joined back with
      single spaces. */
  function SplitHashtags(content: string): CreatePostBody {
    var words := Split(content, ' ');
    CreatePostBody(Join(Filter(words, IsPlainWord), ' '), DropFirst(Filter(words, IsHashtag)))
  }

  /** What the split promises: topics are the hashtag words in order, each
      without its leading '#'; the content is the other words joined by single
      spaces; every word lands on exactly one side. */
  lemma SplitHashtagsSpec(content: string)
    ensures var words := Split(content, ' ');
            var b := SplitHashtags(content);
            && |b.topics| + |Filter(words, IsPlainWord)| == |words|
            && |b.topics| == |Filter(words, IsHashtag)|
            && (forall i :: 0 <= i < |b.topics| ==> "#" + b.topics[i] == Filter(words, IsHashtag)[i])
            && b.content == Join(Filter(words, IsPlainWord), ' ')
  {
    var words := Split(content, ' ');
    var tags := Filter(words, IsHashtag);
    var topics := DropFirst(tags);
    FilterSplitsInTwo(words);
    forall i | 0 <= i < |tags| ensures "#" + topics[i] == tags[i] {
      assert IsHashtag(tags[i]);
      assert tags[i] == [tags[i][0]] + tags[i][1..];
    }
  }

  /** The content sent is made of exactly the plain words: splitting it again
      gives them back (when there is one), and it holds no hashtag word. */
  lemma SplitHashtagsContent(content: string)
    ensures var plain := Filter(Split(content, ' '), IsPlainWord);
            plain != [] ==> Split(SplitHashtags(content).content, ' ') == plain
    ensures var sent := Split(SplitHashtags(content).content, ' ');
            forall i :: 0 <= i < |sent| ==> !IsHashtag(sent[i])
  {
    var words := Split(content, ' ');
    var plain := Filter(words, IsPlainWord);
    if plain != [] {
      forall i | 0 <= i < |plain| ensures ' ' !in plain[i] {
        var x := plain[i];
        assert x in multiset(plain);
        FilterMultiset(words, IsPlainWord, x);
        assert x in multiset(words);
        assert x in words;
      }
      SplitJoin(plain, ' ');
    } else {
      assert SplitHashtags(content).content == "";
    }
  }

  /** Each word is either a hashtag or a plain word. */
  lemma {:induction false} FilterSplitsInTwo(words: seq<string>)
    ensures |Filter(words, IsHashtag)| + |Filter(words, IsPlainWord)| == |words|
  {
    if words != [] {
      FilterSplitsInTwo(words[1..]);
      assert words == [words[0]] + words[1..];
      FilterCons(words[0], words[1..], IsHashtag);
      FilterCons(words[0], words[1..], IsPlainWord);
    }
  }

  /** Text without a hashtag word is sent unchanged and with no topics. */
  lemma NoHashtagsKeepsContent(content: string)
    requires forall i :: 0 <= i < |Split(content, ' ')| ==> !IsHashtag(Split(content, ' ')[i])
    ensures SplitHashtags(content) == CreatePostBody(content, [])
  {
    var words := Split(content, ' ');
    FilterKeepsAll(words, IsPlainWord);
    JoinSplit(content, ' ');
    FilterSplitsInTwo(words);
  }

  /** `createPostMutation`: the body sent is the hashtag split; a success
      invalidates `["posts"]`, a failure leaves the cache alone. */
  method CreatePost<V>(cache: Cache<V>, content: string, response: Result<(), Failure>)
      returns (sent: CreatePostBody, r: Result<(), Failure>)
    modifies cache
    ensures sent == SplitHashtags(content) && r == response
    ensures cache.entries == old(cache.entries)
    ensures response.Success? ==> cache.stale == old(cache.stale) + MatchingKeys(old(cache.entries), PostsKey)
    ensures response.Failure? ==> cache.stale == old(cache.stale)
  {
    sent := SplitHashtags(content);
    if response.Success? {
      cache.InvalidateQueries(PostsKey);
    }
    r := response;
  }
}
