/** What the foreign collaborators hand back to the screens, and what the
    screens surface to the user. */
module Events {

  /** Outcome of the image-picker callback (gallery or camera). */
  datatype Pick = Picked(uri: string) | Cancelled | PickFailed

  /** A user-visible alert raised by a handler; `Quiet` when it raises none. */
  datatype Notice =
    | Quiet
    | LoadFailed
    | SaveFailed
    | PickerError
    | QuestCompleted
    | IncorrectAnswer
    | MissingFields
    | InvalidCoordinates
    | ProfileSaved
    | LoggedOut
}
