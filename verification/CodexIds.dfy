/** Names of threads, turns and clients; only equality and emptiness matter. */
module CodexIds {
  type Id = nat
}
