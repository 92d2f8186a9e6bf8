/** Identities shared by the real-time channel and the services. */
module Identity {
  /** A user's id, as the token verifier and the database give it. */
  type UserId = string
}
