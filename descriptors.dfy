/**
 * The two immutable records that flow through the tool. Both unpack
 * as (identifier, title), in the order of their fields.
 */
module Descriptors {

  /** A Commons category and the knowledge-base item it belongs to; the title carries no namespace. */
  datatype CategoryDescriptor = CategoryDescriptor(qId: string, title: string)

  /** A Commons file: its media id (`M` + page id) and its title with the `File:` namespace. */
  datatype FileDescriptor = FileDescriptor(mId: string, title: string)
}
