/** `src/hooks/useComments.ts`: the comments query (its key, its `enabled`
    flag and its data default) and the two comment mutations, which only
    invalidate once the server has answered. */
module Comments {
  import opened Wrappers
  import opened Text
  import opened QueryCache
  import opened ApiClient
  import opened ApiHooks

  /** The `params` of `useCommentsFetcher`; both ids are optional. */
  datatype CommentParams = CommentParams(postId: Option<string>, commentId: Option<string>)

  const CommentsPrefix: QueryKey := [Str("comments")]

  function KeyPartOf(id: Option<string>): KeyPart {
    if id.Some? then Str(id.value) else Undefined
  }

  /** `["comments", params.postId || params.commentId]`. */
  function CommentsKey(params: CommentParams): (k: QueryKey)
    ensures |k| == 2 && Matches(CommentsPrefix, k)
    ensures Truthy(params.postId) ==> k[1] == Str(params.postId.value)
    ensures !Truthy(params.postId) ==> k[1] == KeyPartOf(params.commentId)
  {
    CommentsPrefix + [if Truthy(params.postId) then Str(params.postId.value) else KeyPartOf(params.commentId)]
  }

  /** The key does not say which kind of id it holds: a post and a comment
      with the same id share one cache entry. */
  lemma SharedKey(id: string)
    requires id != ""
    ensures CommentsKey(CommentParams(Some(id), None)) == CommentsKey(CommentParams(None, Some(id)))
  {
  }

  /** `options?.enabled ?? (!!params.postId || !!params.commentId)`. */
  function CommentsEnabled(params: CommentParams, enabled: Option<bool>): (on: bool)
    ensures enabled.Some? ==> on == enabled.value
    ensures enabled.None? ==> (on <==> Truthy(params.postId) || Truthy(params.commentId))
  {
    enabled.GetOr(Truthy(params.postId) || Truthy(params.commentId))
  }

  /** The configuration `useCommentsFetcher` hands to `useAuthenticatedQuery`:
      its own key and `enabled`, with the authenticated retry rule. */
  function CommentsQueryConfig(params: CommentParams, enabled: Option<bool>): (c: QueryConfig)
    ensures c.queryKey == CommentsKey(params)
    ensures c.enabled == Some(CommentsEnabled(params, enabled))
    ensures c.retry == RetryWhen(AuthenticatedRetry)
    ensures c.staleTime.None?
  {
    AuthenticatedQueryConfig(CommentsKey(params), QueryOptions(Some(CommentsEnabled(params, enabled)), None, None))
  }

  /** A query result: its `data` and every other field, kept together as `rest`. */
  datatype QueryResult<T, R> = QueryResult(data: Option<seq<T>>, rest: R)

  /** `{ ...query, data: query.data || [] }`. */
  datatype FetcherResult<T, R> = FetcherResult(data: seq<T>, rest: R)

  function FetcherView<T, R>(q: QueryResult<T, R>): (r: FetcherResult<T, R>)
    ensures r.rest == q.rest
    ensures q.data.Some? ==> r.data == q.data.value
    ensures q.data.None? ==> r.data == []
  {
    FetcherResult(q.data.GetOr([]), q.rest)
  }

  /** The success handler of both comment mutations. */
  method InvalidateComments<V>(cache: Cache<V>)
    modifies cache
    ensures cache.entries == old(cache.entries)
    ensures cache.stale == old(cache.stale) + MatchingKeys(old(cache.entries), CommentsPrefix)
  {
    cache.InvalidateQueries(CommentsPrefix);
  }

  /** `useCommentsVoter`: nothing is written to the cache before the server
      answers; a success marks every comments query stale. */
  method VoteComment<V>(cache: Cache<V>, response: Result<(), Failure>) returns (r: Result<(), Failure>)
    modifies cache
    ensures r == response
    ensures cache.entries == old(cache.entries)
    ensures response.Success? ==> cache.stale == old(cache.stale) + MatchingKeys(old(cache.entries), CommentsPrefix)
    ensures response.Failure? ==> cache.stale == old(cache.stale)
  {
    if response.Success? {
      InvalidateComments(cache);
    }
    r := response;
  }

  /** `useCommentsCreator`: the same invalidation after a created comment. */
  method CreateComment<V>(cache: Cache<V>, response: Result<(), Failure>) returns (r: Result<(), Failure>)
    modifies cache
    ensures r == response
    ensures cache.entries == old(cache.entries)
    ensures response.Success? ==> cache.stale == old(cache.stale) + MatchingKeys(old(cache.entries), CommentsPrefix)
    ensures response.Failure? ==> cache.stale == old(cache.stale)
  {
    if response.Success? {
      InvalidateComments(cache);
    }
    r := response;
  }

  /** Every comments query, whatever its ids, is reached by that invalidation. */
  lemma CommentsQueriesInvalidated<V>(entries: map<QueryKey, V>, params: CommentParams)
    requires CommentsKey(params) in entries
    ensures CommentsKey(params) in MatchingKeys(entries, CommentsPrefix)
  {
  }
}
