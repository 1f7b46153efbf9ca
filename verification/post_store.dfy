/**
 The post repository as the new-post action uses it. The repository's
 implementation is not part of this model: the store is an abstract list of
 posts, and `createPost` adds one record to it.
 */
module PostStore {

  /** The record handed to `createPost`. */
  datatype Post = Post(title: string, slug: string, markdown: string)

  type Store = seq<Post>

  /** No field of the post is empty. */
  predicate Complete(p: Post) {
    |p.title| > 0 && |p.slug| > 0 && |p.markdown| > 0
  }

  /** Every post in the store is complete. */
  predicate AllComplete(store: Store) {
    forall i :: 0 <= i < |store| ==> Complete(store[i])
  }

  /** `createPost(post)`: the store gains the post and nothing else changes. */
  function CreatePost(store: Store, post: Post): (r: Store)
    ensures multiset(r) == multiset(store) + multiset{post}
    ensures forall p :: p in store ==> p in r
    ensures forall p :: p in r ==> p in store || p == post
  {
    store + [post]
  }

  /** Adding a complete post keeps every post in the store complete. */
  lemma CreatePostKeepsComplete(store: Store, post: Post)
    requires AllComplete(store)
    requires Complete(post)
    ensures AllComplete(CreatePost(store, post))
  {
  }
}
