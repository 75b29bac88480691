/** The identifiers that shards, users and deployments go by. */
module Identifiers {
  predicate Alphanumeric(c: char) {
    'a' <= c <= 'z' || 'A' <= c <= 'Z' || '0' <= c <= '9'
  }

  /** 1 to 128 characters, each alphanumeric or one of `punctuation`. */
  predicate ValidName(name: string, punctuation: string) {
    0 < |name| <= 128 && forall i | 0 <= i < |name| :: Alphanumeric(name[i]) || name[i] in punctuation
  }

  /** Of tenants and shards in a placement. */
  predicate ValidResourceId(id: string) {
    ValidName(id, "-_")
  }

  /** Of users and root deployments, and of tenants and shards in a signed request. */
  predicate ValidSubject(id: string) {
    ValidName(id, "._-")
  }
}
