/** A user in a guild, for whom credit is kept and streams are watched. */
module Members {
  datatype Member = Member(guild: string, user: string)
}
