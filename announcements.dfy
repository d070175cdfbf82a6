/**
 * The value types shared by the listener and its factory: the kind of
 * notification server a folder uses, and an announcement (a folder
 * identifier with a message), which is immutable and compared by value.
 */
module Announcements {

  /** Whether a folder talks to its own notification server or to the shared central one. */
  datatype NotificationServerType = Own | Central

  /** One notification about a folder: which folder, and the message for it. */
  datatype Announcement = Announcement(folderIdentifier: string, message: string)
}
