/**
 * What a call to the generative model returns, as far as the route
 * handlers can tell: the generated text, or an exception (network failure,
 * quota, bad key...). Which of the two happens is an input of the model.
 */
module Remote {
  datatype ModelReply = Generated(text: string) | Raised
}
