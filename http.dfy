/** The one piece of the HTTP client the model needs: the request a service
    hands to it. */
module Http {
  datatype Request<B> = Post(url: string, body: B)
}
