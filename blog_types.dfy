/** The records the mock back end stores: posts with their author, comments and newsletter subscribers. */
module BlogTypes {
  import opened Wrappers

  datatype Author = Author(
    id: string,
    name: string,
    role: string,
    image: Option<string>,
    bio: Option<string>,
    displayName: Option<string>)

  datatype Post = Post(
    id: string,
    slug: string,
    title: string,
    excerpt: string,
    content: string,
    coverImage: string,
    category: string,
    tags: seq<string>,
    author: Author,
    publishedAt: string,
    readingTime: string)

  datatype Comment = Comment(
    id: string,
    postId: string,
    name: string,
    email: string,
    message: string,
    createdAt: string,
    approved: bool)

  datatype Subscriber = Subscriber(id: string, email: string, subscribedAt: string)
}
