/** Text layout alignments, shared by the text controller and the text visual. */
module Layout {
  datatype HorizontalAlignment = HorizontalBegin | HorizontalCenter | HorizontalEnd
  datatype VerticalAlignment = VerticalTop | VerticalCenter | VerticalBottom
}
