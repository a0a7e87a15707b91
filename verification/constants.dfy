/** Zone alignment settings shared by the migrations. */
module Constants {

  const AllowedZoneAlignments: seq<string> := ["left", "right", "center"]
  const DefaultZoneAlignment: string := "center"
}
