/**
 * The chat service's message entity. The fresh id and the UTC clock reading
 * of NewChatMessage are parameters.
 */
module ChatMessage {
  import opened Common

  datatype ChatMessage = ChatMessage(
    id: Uuid, streamId: Uuid, userId: Uuid, username: string, content: string,
    timestamp: Instant, isDeleted: bool)

  /** NewChatMessage: the given fields, a fresh id and the current time, not deleted. */
  function NewChatMessage(streamId: Uuid, userId: Uuid, username: string, content: string,
                          newId: Uuid, now: Instant): (m: ChatMessage)
    ensures m.streamId == streamId && m.userId == userId && m.username == username && m.content == content
    ensures m.id == newId && m.timestamp == now && !m.isDeleted
  {
    ChatMessage(newId, streamId, userId, username, content, now, false)
  }

  /** Validate: some content, some username, and a stream. Lengths are UTF-8 byte counts. */
  predicate Validate(m: ChatMessage)
  {
    ByteLen(m.content) > 0 && ByteLen(m.username) > 0 && m.streamId != NilUuid
  }

  /** A message is valid exactly when its content and username are non-empty and its stream id is not nil. */
  lemma ValidateIff(m: ChatMessage)
    ensures Validate(m) <==> m.content != "" && m.username != "" && m.streamId != NilUuid
  {
    ByteLenEmpty(m.content);
    ByteLenEmpty(m.username);
  }

  /** Validate looks at no other field. */
  lemma ValidateIgnoresOtherFields(m: ChatMessage, id: Uuid, userId: Uuid, timestamp: Instant, isDeleted: bool)
    ensures Validate(m.(id := id, userId := userId, timestamp := timestamp, isDeleted := isDeleted)) == Validate(m)
  {
  }

  /** A new message is valid exactly when the username and content are non-empty and the stream id is not nil. */
  lemma NewChatMessageValidIff(streamId: Uuid, userId: Uuid, username: string, content: string, newId: Uuid, now: Instant)
    ensures Validate(NewChatMessage(streamId, userId, username, content, newId, now))
            <==> username != "" && content != "" && streamId != NilUuid
  {
    ValidateIff(NewChatMessage(streamId, userId, username, content, newId, now));
  }
}
