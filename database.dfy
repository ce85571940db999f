/** The records the client reads from and writes to the backend (src/types/database.ts). Timestamps the client
    only displays stay strings; the ones it computes with are integer milliseconds. */
module Database {
  import opened Options

  datatype AppUser = AppUser(
    id: string,
    name: string,
    city: string,
    zip: string,
    reputationScore: real,
    karmaPoints: int,
    avatarUrl: string)

  datatype ListingType = SALE | DONATION | TRADE

  datatype Listing = Listing(
    id: string,
    sellerId: string,
    title: string,
    description: string,
    condition: string,
    priceCents: int,
    kind: ListingType,
    circleId: Option<string>,
    distance: Option<real>)

  datatype Circle = Circle(id: string, name: string, zipCenter: string, imageUrl: string)

  datatype StoryKind = IMAGE | VIDEO

  datatype Story = Story(
    id: string,
    circleId: Option<string>,
    mediaUrl: string,
    title: string,
    kind: StoryKind,
    ctaText: Option<string>,
    ctaLink: Option<string>)

  /** `other_user` and `unread_count` are optional fields the client fills in for display. */
  datatype Conversation = Conversation(
    id: string,
    participant1Id: string,
    participant2Id: string,
    lastMessage: string,
    lastMessageAt: string,
    updatedAt: string,
    otherUser: Option<AppUser>,
    unreadCount: Option<int>)

  datatype Message = Message(
    id: string,
    conversationId: string,
    senderId: string,
    content: string,
    createdAt: string,
    isRead: bool)

  datatype NotificationKind = MESSAGE | SYSTEM | TRANSACTION

  datatype Notification = Notification(
    id: string,
    userId: string,
    kind: NotificationKind,
    title: string,
    message: string,
    isRead: bool,
    createdAt: string,
    link: Option<string>)
}
